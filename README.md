# formio-cli `migrate` — a Dafny model of its decision logic

`src/migrate.js` copies form submissions from a source (a CSV file or a Form.io
form) into a destination Form.io form. It can also copy every form of a project.
The script is mostly HTTP and stream plumbing. This project models its
deterministic decisions. Every request, module load and stream result is an
input value and is not performed:

- **Command line** (`Invocation.ParseParams`): `<src> <dest>`, `<src> <transformer> <dest>`
  or `<src> project <dest>`. A missing position is JavaScript's `undefined`
  (`JsValues.Arg`).
- **Headers** (`Headers.BuildHeaders`): `content-type` is always set. Then `x-token`
  is set from an API key, or else `x-jwt-token` from the current user's token.
- **One form** (`FormMigration.MigrateForm`): four checks in a fixed order. Then
  the transformer is chosen (the built-in `"form"`, or a module that may fail to
  load). Then the destination is loaded, or created under its project, and the
  records are streamed.
- **Records** (`Records.RunRecords` against `Records.Pipeline`): records are run
  one at a time. A transform error, a non-2xx response or a submit rejection ends
  the stream. A falsy transform result is skipped. An accepted submission moves on
  to the next record. The concurrency bound is kept only as a number
  (`Records.Parallelism`).
- **Project** (`ProjectMigration.RunProject` against `ProjectMigration.Project`):
  the form listing, its error and empty cases, then `async.eachSeries` over the
  forms in listing order, stopping at the first failure.
- **Entry point** (`ProjectMigration.Migrate`): parses the parameters, builds both
  header maps, and runs the single-form or the project migration.

A migration ends in one of three ways (`FormMigration.Completion`):

- `Done(err)`: the completion callback is called, with or without an error.
- `Silent`: the callback is never called. This covers a failed transformer load,
  a source form load that rejects, and a stream stalled by a rejection with no
  `response`.
- `Crashed`: an exception escapes a callback.

Some behaviours of the code that the model keeps as they are:

- A non-2xx submission ENDS the stream: its body is passed to `nextItem`
  (`src/migrate.js:138`). A rejected submission ends it the same way, with the
  rejection (`src/migrate.js:146`). `Records.RejectedResponseStopsBeforeNext`
  shows a 500 followed by a 200: only the first record is submitted.
- `DestProject` removes the FIRST occurrence of `"/" + path`, wherever it is
  (`src/migrate.js:170`). `FormMigration.DestProjectStripsFirstMatch` shows an
  earlier segment being removed instead of the last one.
- A transformer module that fails to load returns without calling `done`
  (`src/migrate.js:90-93`). This can only happen for a single form: project mode
  always uses the built-in transformer.
- The create response's status is never checked; only a transport error stops the
  form (`src/migrate.js:182-188`).
- If the source is not CSV and no source client is configured, or the submission
  request throws when called (the throw is caught and only logged), the stream stays
  null and `stream.pipe` throws. Inside the destination load's `.then` that rejection
  reaches the create path, so even an existing destination gets a create request.
  The second attempt then throws out of the request callback (`FormMigration.NullStreamRecreatesDestination`).

## Model

| member | source | states |
|---|---|---|
| `Invocation.ParseParams` | src/migrate.js:11-25 | `Parses`: `params[1] == "project"` gives project mode, transformer "form", src `params[0]`, dest `params[2]`. Otherwise, with exactly two params, transformer is "form" and dest is `params[1]`. With any other count, transformer is `params[1]` and dest is `params[2]`. Missing positions are `undefined`. |
| `Headers.BuildHeaders` | src/migrate.js:27-53 | `HeadersFor`: `content-type: application/json` is always present. An API key gives `x-token` and no `x-jwt-token`. Else a current-user token gives `x-jwt-token`. No credentials give only the content type. Never both auth headers, and no other keys. |
| `FormMigration.Preflight` | src/migrate.js:64-78 | The first missing item among src, transformer, dest and server gives exactly its message. No failure exactly when all four are present. |
| `FormMigration.SelectTransformer` | src/migrate.js:82-94 | "form" selects the built-in transformer. Any other name is loaded from `cwd + "/" + name` and fails exactly when that path does not load. |
| `FormMigration.PreflightFailureMakesNoRequest` | src/migrate.js:63-78 | A failed check calls `done` with its message. It loads nothing, creates nothing and submits nothing. |
| `FormMigration.FailedModuleLoadIsSilent` | src/migrate.js:86-93 | A transformer load failure ends the migration without calling `done` and before any request. |
| `Records.IsAccepted` | src/migrate.js:134 | `parseInt(statusCode/100) == 2` with truncation toward zero holds exactly for 200..299. |
| `Records.Callback` | src/migrate.js:121-147 | A record goes on to the next one exactly when it is skipped or its submission is accepted. It never calls back exactly when its submission is rejected without a response. A transform error stops with that error, a non-2xx response with its body, and a rejection with a response with the rejection. |
| `Records.Parallelism` | src/migrate.js:149-151 | The concurrency bound is 1 exactly in project mode (100 otherwise). It is always at least 1. |
| `Records.FirstHalt` | src/migrate.js:121-147 | The first record whose callback does not call `nextItem()` without an error. All records before it continue. |
| `Records.Pipeline` | src/migrate.js:121-159 | The stream finishes exactly when every record continues, after observing all of them. An error stop is at the first halting record, with that record's error, and no later record is observed; a stall is at a record that never calls back. The submitted payloads are those of the submitted records observed. `nextItem` is called once per observed record, except for a stalled one. |
| `Records.RunRecords` | src/migrate.js:121-159 | The loop over the records computes exactly `Pipeline`. |
| `Records.TransformErrorEndsStream` | src/migrate.js:122-126 | A transform error ends the stream with that error; nothing after it is observed or submitted. |
| `Records.SkippedNotSubmitted` | src/migrate.js:128-130 | A skipped record adds no submission. |
| `Records.NonAcceptedResponseEndsStream` | src/migrate.js:133-139 | A non-2xx response ends the stream with the response body as the error, after that record's submission. |
| `Records.RejectedSubmitEndsStream` | src/migrate.js:144-147 | A rejection with a response ends the stream with the rejection. One without a response never calls `nextItem`, so the stream stalls. |
| `Records.RejectedResponseStopsBeforeNext` | src/migrate.js:133-143 | A 500 then a 200: only the first payload is submitted, and the stream ends with the first body. |
| `Records.AllAcceptedSubmitsAll` | src/migrate.js:121-159 | N accepted records give N submissions, in record order, and a finished stream. |
| `Records.SkipOddSubmitsHalf` | src/migrate.js:128-143 | Skipping the odd positions and accepting the rest gives ceil(N/2) submissions and a finished stream. |
| `Records.PayloadsAppend` | src/migrate.js:133 | The submissions of two record runs in a row are the first run's followed by the second's. |
| `FormMigration.DestProject` | src/migrate.js:170 | With no occurrence of `"/" + path` the location is unchanged. Otherwise the first occurrence is cut out. |
| `FormMigration.IndexFrom` | src/migrate.js:170 | The first position at or after `from` where the pattern occurs, or none when it occurs nowhere. |
| `JsValues.Reported` | src/migrate.js:210 | `err.message || err`: an error object with a non-empty message is reported as that message, any other error as itself. |
| `FormMigration.DestProjectOfJoined` | src/migrate.js:170 | `DestProject(project + "/" + path, path) == project` when the pattern does not start earlier. |
| `FormMigration.DestProjectStripsFirstMatch` | src/migrate.js:170 | For "https://x/bb/b" and path "b" the result is "https://xb/b", not "https://x/bb". |
| `FormMigration.CreateBody` | src/migrate.js:176-181 | The create body has exactly the keys title, path, name and components, copied from the source form. |
| `FormMigration.StreamSource` | src/migrate.js:102-119 | A command source ending in ".csv" reads the file at `cwd + "/" + src`. Otherwise a source client gives a GET of `src + "/submission"` with limit "10000000" and the source headers, unless that request throws when called. There is no stream exactly when the source is not CSV and there is no source client or its request threw. |
| `FormMigration.StreamCompletion` | src/migrate.js:153-159 | `done()` exactly when the stream finished. An error calls `done(err)` with that error. `done` is never called exactly when the stream stalled, and the stream itself never crashes. |
| `FormMigration.CreateMissing` | src/migrate.js:164-191 | The destination was loaded. A source form that does not load gives no create and no `done`. Otherwise exactly one create is posted to `DestProject(dest, path) + "/form"` with the destination headers and `CreateBody`. A transport error calls `done(err)` without data. Data is streamed exactly when the create had no transport error and there is a stream source; with none the run crashes. Once data is streamed, the stream's end decides `done`. |
| `FormMigration.MigrateForm` | src/migrate.js:63-192 | At most one create request. Data is streamed only after the destination load, over all the form's records, with the mode's concurrency bound. `done()` without an error only when the stream finished. |
| `FormMigration.ExistingDestinationIsNotCreated` | src/migrate.js:164 | A destination that loads, when there is a stream source, gets no create request. Its data is streamed and the stream's end decides `done`. |
| `FormMigration.MissingDestinationIsCreated` | src/migrate.js:164-189 | A missing destination gets exactly one create, posted to `DestProject(dest, path) + "/form"` with the destination headers and `CreateBody`. A transport error calls `done(err)` with no data. Any response, whatever its status, leads on to the data, and the stream's end then decides `done`. |
| `FormMigration.UnloadableSourceFormIsSilent` | src/migrate.js:167-168 | A missing destination whose source form fails to load makes no create and never calls `done`. |
| `FormMigration.NullStreamRecreatesDestination` | src/migrate.js:102-119 | With no stream source (no CSV source, and no source client or a submission request that throws), an existing destination is still sent one create request. The run crashes without data. |
| `FormMigration.CsvDetectionUsesCommandSource` | src/migrate.js:103-104 | The command's own `src` decides CSV mode. The file read is the form's source location under the working directory. |
| `ProjectMigration.SeriesInListingOrder` | src/migrate.js:218-231 | The iteratee is applied to the listed forms in listing order, from the first form. A non-empty listing starts at least one form, and never more forms than were listed. |
| `ProjectMigration.SeriesStopsAtFirstFailure` | src/migrate.js:218-231 | Each form is started only after all before it succeeded. The series succeeds exactly when every listed form succeeded; otherwise it ends with the failure of the last form it started. |
| `ProjectMigration.Series` | src/migrate.js:218-231 | `async.eachSeries` never starts more forms than were listed, and succeeds only after starting all of them. |
| `ProjectMigration.RunSeries` | src/migrate.js:218-231 | The loop over the forms equals `Series`: it leaves at the first form that does not call back without an error, with that form's completion. |
| `ProjectMigration.Project` | src/migrate.js:199-232 | The listing is requested from `src + "/form"` with limit "10000000", select "_id,path,title" and the source headers. Forms are started only for a listing that has some, never more than were listed. Success only after every listed form was started. |
| `ProjectMigration.RunProject` | src/migrate.js:199-232 | The loop equals `Project`. A listing error gives `err.message`, or else the error itself, and starts no form. An absent or empty body gives "No forms were found within the source project." and starts no form. |
| `ProjectMigration.ProjectMigratesInListingOrder` | src/migrate.js:218-224 | A non-empty listing starts at least one form. Form i goes from `src/<path>` to `dest/<path>` (an undefined dest reads "undefined"), and its run is the one-form migration of those locations with the project's transformer. |
| `ProjectMigration.ProjectOfListing` | src/migrate.js:213-231 | A non-empty listing body gets its listing request and then runs exactly the series over its forms. The completion is the series' end, with an error reported as `err.message`, or else the error itself. |
| `ProjectMigration.ProjectStopsAtFirstFailure` | src/migrate.js:218-231 | Every form before the last one started succeeded. The first failure stops the rest and is reported as `err.message`, or else the error itself. Success is reported exactly when every listed form succeeded. |
| `ProjectMigration.ProjectJobsSubmitOneAtATime` | src/migrate.js:150 | In project mode every form that streams data does so with concurrency bound 1. |
| `ProjectMigration.Migrate` | src/migrate.js:11-196 | The mode and the three locations are those of `Parses`, and both header maps are those of `HeadersFor` for each side's credentials. A single form runs `MigrateForm` on the parsed locations and transformer. A project runs `Project` with transformer "form". |

## Left out

- HTTP requests (`Form.load`, `Form.submit`, the form listing, the create POST and the submission GET): their results are inputs (`FormIO`, `Listing`), including whether the submission request throws when called; timeouts and TLS settings are not modelled.
- CSV parsing, JSONStream parsing, file reading and piping with backpressure: the records of a form are a finite sequence given as input; their contents are abstract payloads.
- The concurrency of the record stream (`parallel: 100`): records are processed one at a time, so overlapping submissions and completion order are not modelled; the bound is only a value.
- `require` of a transformer module: a set of paths that load is an input; the transformer itself (and `./transforms/form`, which is not part of this model) is abstract, its results are part of each record's outcome.
- `console.log` and the progress dots: observational only.
- Promise semantics: a rejection nobody handles is modelled only as `Silent`. There are two: `srcForm.load()` failing (`src/migrate.js:168`), and the `TypeError` thrown inside the submit's `.catch` when the rejection has no `response` (`src/migrate.js:145`, the `Hang` verdict).
- Errors of the source stream itself (a missing CSV file, a failed submission GET) have no listener in the code (`src/migrate.js:102-119`). Node throws an unheard `'error'` event, so the process ends (`Crashed` in the model's terms). The model takes the stream as given and does not produce that outcome.
- Error values are all treated as truthy; JavaScript would treat an empty-string error or an empty response body passed to `nextItem` as no error.
- A listing body that is a string or an object with a `length` is not modelled; the body is absent, empty or an array of forms.
- Status codes are integers; `parseInt` on the string form of a non-integer or very large number is not modelled.
- `Records.Parallelism`: only the bound's value is stated; that at most that many submissions are in flight is a concurrency property outside this sequential model.
