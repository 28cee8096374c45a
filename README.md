# Pickabook prototype: a verified model of the job protocol

Pickabook turns a child's photo into a children's-book illustration. The
system has three parts:

- A web client (`frontend/components/UploadForm.tsx`) uploads the photo and polls the job status.
  After each reply that shows the job still running it schedules one more
  poll, 1500 ms later. Once the job is finished it opens or downloads the
  result.
- A FastAPI service (`backend/app/main.py`) stores each job under
  `./tasks/{id}` and starts a background pipeline. It serves `meta.json`
  as the job status, and serves two result images.
- The pipeline (`backend/app/ai_pipeline.py`, helpers in
  `backend/app/utils.py`) does the following:
  - stylizes the photo through Replicate;
  - pastes the stylized face into a template when there is one;
  - records the outcome as the job's last `meta.json` write.

The model consists of these modules.

- `Base` holds the shared wrapper types: `Option`, `Outcome` (succeeded, or raised with a message) and `Result`.
- `Text` holds the string operations the sources rely on:
  - `startswith`;
  - `split` on one character, and its inverse `Join`;
  - Python's `str.strip()` over its whitespace set.
- `UploadForm` models the client component as the class `Form`.
  - Its six state variables are fields.
  - Each handler is a method.
  - A handler that awaits an HTTP call is split at the `await`. The first part records the request in `inFlight`. An `On…Reply` method then runs the continuation, taking the reply as an input.
  - A re-poll scheduled with `setTimeout` is kept in the multiset `timers` until `OnTimer` runs it.
- `Server` models the service. `TaskStore` maps each task id to the file names in its directory and its `meta.json` record. Its members are:
  - the `/upload` method;
  - the `/status` and `/result` routes, as functions;
  - the CORS origin list;
  - the start-up template fix-up.
- `Pipeline` models the background job.
  - It chooses the effective template.
  - It writes the sequence of `meta.json` records.
  - It adds the result files it produces to the task's directory.

  The outcomes of stylization and of insertion are inputs, and so are the existence checks. The module also models Python's keyword binding for the call `pipeline` makes.
- `ReplicateOutput` models `_extract_url` over a datatype of Python values, and the error paths of `stylize_with_replicate`.
- `FaceBoxes` models the integer geometry:
  - the largest-detection loop;
  - the padded crop;
  - the template target rectangle.
- `Integration` connects the parts:
  - what the client sends, against what `/upload` requires;
  - what a finished job records, against what the result routes serve;
  - what the client shows for an error record.

Two facts span files, and the model keeps both as the code does them.

1. The client sends only the `photo` field. `/upload` requires a template or a prompt, so it refuses every upload from this client (`Integration.FormUploadRefused`).
2. `pipeline` passes `user_prompt=` to `stylize_with_replicate`, which declares no such parameter. Every run that does start therefore ends in the error record (`Pipeline.EveryRunFails`). A form polling that job shows the resulting TypeError text (`Integration.AcceptedUploadShowsError`).

The client also behaves as follows, and the model keeps it so:

- it sends neither a template nor a prompt;
- it has no guard against a stale poll after Reset (`UploadForm.RepollAfterReset`, `UploadForm.StaleReplyAfterReset`);
- Reset keeps `taskId` and `errorMsg`;
- it never revokes the preview object URLs it creates.

## Model

| member | source | states |
|---|---|---|
| Text.OrElse | frontend/components/UploadForm.tsx:50 | `x \|\| fallback` for an optional string: the value when it is non-empty, else the fallback, so never empty when the fallback is not |
| Text.Split | backend/app/main.py:24 | `str.split(sep)` gives at least one piece, and no piece contains the separator |
| Text.JoinSplit | backend/app/main.py:24 | joining the pieces of a split with the separator gives back the original string |
| Text.SplitJoin | backend/app/main.py:24 | splitting a join of separator-free pieces gives back exactly those pieces |
| Text.SplitWithoutSeparator | backend/app/main.py:24 | a string without the separator splits into itself alone |
| Text.SplitAround | backend/app/main.py:24 | splitting around one separator concatenates the splits of both sides |
| Text.LastPieceAfterSeparator | frontend/components/UploadForm.tsx:98-99 | the last piece of `prefix + "/" + name` is `name` when `name` has no "/" |
| Text.TrimStart | backend/app/main.py:24 | the result is a suffix of the input; everything removed is whitespace; the result does not start with whitespace |
| Text.TrimEnd | backend/app/main.py:24 | the result is a prefix of the input; everything removed is whitespace; the result does not end with whitespace |
| Text.Strip | backend/app/main.py:67 | `str.strip()` never lengthens its input (its other properties are the lemmas below) |
| Text.StripKeepsAbsent | backend/app/main.py:24 | stripping introduces no character that was absent, e.g. no comma |
| Text.TrimStartOfBlank | backend/app/main.py:67 | an all-whitespace string trims to the empty string |
| Text.StripEmptyIffBlank | backend/app/main.py:67 | `s.strip() == ""` exactly when `s` contains only whitespace |
| Text.StripIdempotent | backend/app/main.py:24 | stripping twice is stripping once |
| UploadForm.Resolve | frontend/components/UploadForm.tsx:62 | an address starting with "http" is kept; any other is prefixed with BACKEND; either way the result ends with the address |
| UploadForm.ResolveAbsolute | frontend/components/UploadForm.tsx:80-82 | with a BACKEND starting with "http", every resolved address starts with "http" |
| UploadForm.ResolveIdempotent | frontend/components/UploadForm.tsx:80-82 | with such a BACKEND, resolving an already resolved address changes nothing |
| UploadForm.ResolveTwiceWithRelativeBase | frontend/components/UploadForm.tsx:80-82 | with a BACKEND not starting with "http", a second resolution prefixes it again |
| UploadForm.PickUrl | frontend/components/UploadForm.tsx:59 | `result_url \|\| stylized_url`: non-empty iff either field is; the canonical field wins whenever it is non-empty |
| UploadForm.FileName | frontend/components/UploadForm.tsx:98-99 | the download name is never empty and contains no "/" |
| UploadForm.FileNameOfPath | frontend/components/UploadForm.tsx:98-99 | an address ending in "/name" downloads as "name" |
| UploadForm.FileNameOfBareName | frontend/components/UploadForm.tsx:98-99 | an address with no "/" downloads under itself, or as "result.png" when it is empty |
| UploadForm.FileNameOfDirectory | frontend/components/UploadForm.tsx:99 | an address ending in "/" downloads as "result.png" |
| UploadForm.Form.constructor | frontend/components/UploadForm.tsx:6-11 | all six state variables start as null; no requests, re-polls, previews, opened windows or saved files |
| UploadForm.Form.OnFileChange | frontend/components/UploadForm.tsx:15-20 | clears the error and takes the chosen file without a type check; a chosen file gets a new preview URL appended to those created |
| UploadForm.Form.OnDrop | frontend/components/UploadForm.tsx:22-32 | a file whose type starts with "image/" becomes the file with a new preview; anything else sets "Please drop a valid image file." and leaves file and preview alone |
| UploadForm.Form.Upload | frontend/components/UploadForm.tsx:34-43 | without a file, only the error is set: no request, status unchanged; otherwise status "uploading", the error cleared, and exactly one upload request carrying the photo |
| UploadForm.Form.OnUploadReply | frontend/components/UploadForm.tsx:44-51 | success stores the task id, moves to "processing" and issues exactly one poll of that id; failure moves to "error" with the transport message or "Upload failed" and no poll |
| UploadForm.Form.PollStatus | frontend/components/UploadForm.tsx:54-56 | issues exactly one status request for the id |
| UploadForm.Form.OnStatusReply | frontend/components/UploadForm.tsx:54-76 | answers that poll: a transport failure gives "error" with the message or "Status check failed" and no re-poll; a body is handled by `ApplyStatus` |
| UploadForm.Form.ApplyStatus | frontend/components/UploadForm.tsx:57-70 | "done": phase done, resultUrl set to the resolved picked address or left alone when both fields are empty; "error": the `error` field or "Processing failed"; any other status changes nothing but schedules exactly one re-poll of the same id |
| UploadForm.Form.OnTimer | frontend/components/UploadForm.tsx:69 | a scheduled re-poll, once fired, is removed and issues one status request for its id, whatever happened meanwhile |
| UploadForm.Form.OpenResult | frontend/components/UploadForm.tsx:78-84 | no result: nothing opens; otherwise exactly the resolved address is opened, which is the stored one when BACKEND starts with "http" |
| UploadForm.Form.DownloadResult | frontend/components/UploadForm.tsx:86-93 | no result: nothing happens; otherwise phase "downloading" and one fetch of the resolved address |
| UploadForm.Form.OnDownloadReply | frontend/components/UploadForm.tsx:94-109 | success saves the blob under the last path segment (or "result.png") with its type (or "image/png") and returns to "done"; failure gives "error" and "Download failed" |
| UploadForm.Form.Reset | frontend/components/UploadForm.tsx:198-203 | clears file, preview, result and phase; the invariant survives; task id, error, requests and re-polls are untouched |
| UploadForm.PendingJob | frontend/components/UploadForm.tsx:34-70 | a run in which the upload is accepted and the first poll finds the job still running leaves that job's id with a re-poll pending |
| UploadForm.RepollAfterReset | frontend/components/UploadForm.tsx:69 | Reset while a re-poll is pending leaves the form idle, yet the re-poll still asks for the discarded job's status |
| UploadForm.StaleReplyAfterReset | frontend/components/UploadForm.tsx:57-64 | the "done" reply to that stale poll sets phase "done" and that job's result while the file stays cleared |
| Server.CleanOrigins | backend/app/main.py:24 | the comprehension keeps no empty origin and never adds entries |
| Server.StripAll | backend/app/main.py:24 | one stripped entry per piece, in order |
| Server.CleanOriginsMembers | backend/app/main.py:24 | an origin is kept exactly when it is the non-empty strip of some piece |
| Server.CleanOriginsOfPair | backend/app/main.py:24 | two pieces with non-empty strips, such as "a.com, b.com", give their two strips in order |
| Server.OriginsMembers | backend/app/main.py:22-24 | with a setting in use, an origin is allowed exactly when it is the non-empty strip of one of that setting's comma pieces |
| Server.OriginsFallBack | backend/app/main.py:22 | with ALLOW_ORIGINS unset or empty, the origins are those FRONTEND_URLS alone gives |
| Server.OriginsPreferAllow | backend/app/main.py:22-24 | with ALLOW_ORIGINS set and non-empty, the origins come from it alone, whatever FRONTEND_URLS holds |
| Server.CleanOriginsCommaFree | backend/app/main.py:24 | comma-free pieces give comma-free origins |
| Server.CleanOriginsStripped | backend/app/main.py:24 | every kept origin is already stripped |
| Server.Origins | backend/app/main.py:22-27 | `["*"]` when neither ALLOW_ORIGINS nor FRONTEND_URLS is set and non-empty; otherwise no origin is empty |
| Server.OriginsClean | backend/app/main.py:22-24 | every configured origin is comma-free and stripped |
| Server.CleanOriginsOfClean | backend/app/main.py:24 | clean, non-empty entries pass the comprehension unchanged and in order |
| Server.OriginsRoundTrip | backend/app/main.py:22-24 | clean origins joined with commas into ALLOW_ORIGINS come back exactly, whatever FRONTEND_URLS holds |
| Server.BlankOriginsAllowNothing | backend/app/main.py:24 | pieces that are all whitespace give no origin |
| Server.BlankSettingAllowsNothing | backend/app/main.py:22-27 | an ALLOW_ORIGINS of blanks and commas is taken, yet yields an empty list rather than `["*"]` |
| Server.CopyDefaultTemplate | backend/app/main.py:43-48 | template.png exists afterwards iff it existed, or the duplicate existed and the copy succeeded; no other file changes; nothing happens when it already exists |
| Server.MissingInputs | backend/app/main.py:67 | the upload is refused exactly when no template was sent and the prompt is missing or only whitespace |
| Server.TaskStore.constructor | backend/app/main.py:36-37 | a fresh deployment: no task directories and no jobs started |
| Server.TaskStore.Upload | backend/app/main.py:50-74 | always writes input.jpg, and template.png when sent; refused: 400 with "Please provide either a template image or a custom prompt.", no meta and no job; accepted: meta `queued`, exactly one job started with the input path, the template path and the prompt, and `{task_id}` returned |
| Server.TaskStore.Status | backend/app/main.py:76-83 | 404 `not_found` exactly when the task has no meta; otherwise 200 with the stored record unchanged |
| Server.TaskStore.ResultImage | backend/app/main.py:85-91 | the final image when it exists, else 404 `not_ready` |
| Server.TaskStore.ResultFile | backend/app/main.py:94-103 | 403 `forbidden` exactly for names outside {final.png, stylized.png}, whether or not the file exists; 404 `not_ready` exactly for an allowed missing file; the PNG otherwise |
| Server.TaskStore.WriteMeta | backend/app/ai_pipeline.py:10-12 | replaces the task's `meta.json` and nothing else |
| Server.TaskStore.AddFile | backend/app/ai_pipeline.py:26 | adds one file to the task's directory and changes nothing else |
| Server.FinalRoutesAgree | backend/app/main.py:85-103 | the legacy `final.png` route answers exactly like the generic route for that name |
| Pipeline.ResultUrl | backend/app/ai_pipeline.py:34 | every recorded result address is relative and starts with "/result/" |
| Pipeline.EffectiveTemplate | backend/app/ai_pipeline.py:19-23 | the uploaded template when given and existing, else the default when it exists, else none |
| Pipeline.TemplateAsStyle | backend/app/ai_pipeline.py:33 | the template is a style reference only exactly when one was uploaded and the prompt is missing or only whitespace |
| Pipeline.AttemptsInsertion | backend/app/ai_pipeline.py:19-39 | insertion is attempted exactly when stylization succeeded, the prompt is not blank if a template was uploaded, and either the uploaded template or the default one exists |
| Pipeline.Terminal | backend/app/ai_pipeline.py:33-48 | the last record is "done" or "error"; a raised stylization gives exactly `{'status': 'error', 'error': str(e)}`; `result_url` exactly when insertion was attempted and succeeded, and then the record holds nothing else; a template used as a style reference gives the stylized address with note `used_template_as_style`; no template gives the stylized address with note `no_template`; addresses name the job's own files; a "done" record carries exactly one address |
| Pipeline.Produced | backend/app/ai_pipeline.py:26-43 | a run writes stylized.png exactly when stylization succeeded, and final.png exactly when insertion was attempted and succeeded; both names are on the result allow-list |
| Pipeline.Run | backend/app/ai_pipeline.py:7-48 | writes `processing` first and the terminal record last; the task ends with the produced files added and the last write as its meta |
| Pipeline.TemplateAsStyleSkipsInsertion | backend/app/ai_pipeline.py:33-35 | an uploaded template with a missing or blank prompt gives note `used_template_as_style`, attempts no insertion, and ignores the insertion outcome |
| Pipeline.InsertionFailureStillDone | backend/app/ai_pipeline.py:41-43 | a failed insertion still gives "done", with the stylized image, note `insertion_failed` and the error text |
| Pipeline.PromptWithTemplateInserts | backend/app/ai_pipeline.py:33-39 | with a non-blank prompt and an existing uploaded template, insertion is attempted |
| Pipeline.LinksAreProduced | backend/app/ai_pipeline.py:34-46 | every address recorded names a file the same run produced |
| Pipeline.BindKeywords | backend/app/ai_pipeline.py:26 | binding succeeds iff every keyword names a parameter; otherwise it raises the TypeError naming the first keyword that names none |
| Pipeline.StylizeCallRaises | backend/app/utils.py:55 | the call as written raises "stylize_with_replicate() got an unexpected keyword argument 'user_prompt'" before the body runs |
| Pipeline.EveryRunFails | backend/app/ai_pipeline.py:26-48 | hence every run records `{'status': 'error', 'error': …}` with that text and produces no file |
| ReplicateOutput.Get | backend/app/utils.py:109 | `d.get(k)` is none iff no entry has that key, otherwise the value of an entry with that key |
| ReplicateOutput.FirstHttpValue | backend/app/utils.py:108-111 | the value of the first key, in order, whose value is a string starting with "http"; none iff no key has one |
| ReplicateOutput.FirstHttpWitnessShifts | backend/app/utils.py:108-111 | when the head key fails, the first matching key of the rest is the first of all |
| ReplicateOutput.FindAttr | backend/app/utils.py:116-117 | the position of the first attribute with the name, or -1 iff there is none |
| ReplicateOutput.AttrAnswer | backend/app/utils.py:117-131 | one attribute's step: a missing or raising attribute gives nothing; a string gives itself exactly when it starts with "http"; a list or dictionary gives its own extracted address when that is non-empty; None or another object gives nothing; any address given is non-empty |
| ReplicateOutput.FromAttributes | backend/app/utils.py:116-136 | the answer of the first attribute name, in the order `url`, `get`, `download_url`, `uri`, that gives one; the `str()` fallback only when none does; any address found is non-empty, and nothing is found only when `str()` does not start with "http" |
| ReplicateOutput.NestedAttributeAnswers | backend/app/utils.py:127-131 | an object whose `url` attribute gives a list or dictionary holding an address yields that address |
| ReplicateOutput.UrlAttributeWins | backend/app/utils.py:116-126 | an object whose `url` attribute gives an "http" string yields it, whatever its other attributes and its `str()` |
| ReplicateOutput.NoAttributesUseText | backend/app/utils.py:116-136 | an object with none of the four attributes is answered by its `str()` alone |
| ReplicateOutput.Extract | backend/app/utils.py:102-114 | a string comes back unchanged, even one not starting with "http"; a dictionary gives its first "http" value; None and an empty list give nothing |
| ReplicateOutput.ListAnswersForHead | backend/app/utils.py:113-114 | a non-empty list answers exactly as its first element, with no fallthrough even when that is None |
| ReplicateOutput.CheckedGivesHttp | backend/app/utils.py:116-136 | any address not taken from a bare string reached directly (or through first elements) starts with "http" |
| ReplicateOutput.AttributesGiveHttp | backend/app/utils.py:116-136 | the attribute pass and the `str()` fallback only return addresses starting with "http" |
| ReplicateOutput.RaisingAttributeIsNone | backend/app/utils.py:118-124 | an attribute whose call raises, or whose read inside the `try` raises, behaves exactly as one giving None |
| ReplicateOutput.Stylize | backend/app/utils.py:55-156 | succeeds iff the token is set, the client returned a truthy output, an address was extracted and the download succeeded; the token, client-failure, no-output and "Could not extract a downloadable URL…" messages; a failed download raises its own error and writes nothing; the debug dump is written exactly when no address was found; the output file exactly on success |
| FaceBoxes.LargestDetection | backend/app/utils.py:28-39 | none iff no box has positive area; otherwise a box of maximal area with every earlier box strictly smaller, the earliest one on ties |
| FaceBoxes.LargestUnique | backend/app/utils.py:37-39 | at most one box meets that description |
| FaceBoxes.QuarterTowardZero | backend/app/utils.py:42 | `int(0.25 * m)` truncates the quarter toward zero |
| FaceBoxes.CropRegion | backend/app/utils.py:42-46 | the crop lies inside the image, and a column or row is in it iff it is in the image and in the padded box |
| FaceBoxes.CropContainsBox | backend/app/utils.py:42-46 | a box inside the image lies inside its crop |
| FaceBoxes.DetectAndCrop | backend/app/utils.py:16-46 | "cannot read input image", then "no face detected", then the unpacking TypeError exactly when no area is positive; it succeeds exactly when the image was read and some box has positive area, and then gives the crop of the largest box |
| FaceBoxes.TemplateTarget | backend/app/utils.py:197-200 | the target starts at the box moved left and up by the pads, or at 0 when that is outside; it has the padded size, or ends at the template's right or bottom edge when that is smaller |
| FaceBoxes.TargetOfFittingBox | backend/app/utils.py:197-200 | a box whose padded area fits the template gets exactly that padded area |
| FaceBoxes.TargetContainsBox | backend/app/utils.py:197-200 | with non-negative pads, a box inside the template lies inside its target |
| FaceBoxes.InsertTarget | backend/app/utils.py:172-200 | no detections: the fallback target; the unpacking TypeError exactly when no area is positive; it fails only with that error, and otherwise gives the target of the largest box |
| Integration.FormPicksProducedFile | frontend/components/UploadForm.tsx:57-64 | the form takes an address from a finished job's record exactly when stylization succeeded; the address names a file the job produced, and the download saves it under that name, both for the address resolved once and for the twice-resolved address the form actually fetches |
| Integration.FormUploadRefused | frontend/components/UploadForm.tsx:36-37 | the photo-only upload is refused with 400, starts no job, leaves no status, and the form shows the transport message or "Upload failed" |
| Integration.AcceptedUploadRecordsError | backend/app/main.py:67-74 | an upload with a non-blank prompt is accepted, and its job's status is the keyword-error record |
| Integration.FormShowsRecordedError | frontend/components/UploadForm.tsx:65-67 | a form polling an error record shows its error text or "Processing failed" |
| Integration.AcceptedUploadShowsError | backend/app/ai_pipeline.py:47-48 | the form polling such a job shows the keyword error |
| Integration.RecordedLinksAreServed | backend/app/main.py:94-103 | once a job's files are in place, every address it records is served by the generic result route |
| Integration.DownloadKeepsResultName | frontend/components/UploadForm.tsx:98-99 | a recorded result address, resolved once, is saved under the result file's own name |
| Integration.DownloadOfStoredKeepsName | frontend/components/UploadForm.tsx:62-99 | the address the form stores (resolved once) and fetches (resolved again, which doubles a relative base address) is still saved under the result file's own name |
| Integration.StylizedImageAgrees | backend/app/utils.py:150-156 | the stylization step writes the stylized image exactly when the pipeline counts it as produced |

## Left out

- Server.TaskStore.constructor: the model starts from a fresh deployment. `os.makedirs(BASE_TASKS, exist_ok=True)` (main.py:37) keeps task directories from earlier runs, and the routes still serve them. No contract depends on this, because each task id is a fresh `uuid4` taken as an input.
- The presentation is not modelled: all of `frontend/components/Layout.tsx` and the JSX of the upload form, including the drag-over styling.
- The network, the browser and timers are not modelled:
  - axios, `window.open`, the DOM download link, and `URL.createObjectURL` / `revokeObjectURL` are foreign browser APIs;
  - replies and object URLs are inputs, and opened links and saved files are recorded as values;
  - the 1500 ms delay is a constant; the model records only that one re-poll is pending, not when it fires.
- `console.error` logging and the server's `print` calls are left out; they have no effect on state.
- The background thread of `start_pipeline_async` is left out. Its point is concurrency, so a started job is recorded in `TaskStore.started` and `Pipeline.Run` runs it separately.
- Framework and file-system details are left out:
  - FastAPI routing, CORS middleware, multipart parsing and dotenv loading are not modelled, and `uuid4` is an input;
  - the file system is a map from task id to file names and the last `meta.json` record, with no file contents;
  - exceptions from file I/O and from `write_meta` are not modelled.
- The start-up template fix-up and the pipeline may name different template directories. `main.py` resolves `<app>/../templates`, while the pipeline resolves `./templates` relative to the working directory; the two coincide only when the service runs from `backend/`. The model keeps them separate: `CopyDefaultTemplate` works on a set of names, and `World.defaultExists` is an input.
- OpenCV, mediapipe, PIL (resize, mask, blur, paste), the Replicate client, `requests` and `base64` are foreign libraries.
  - Detections arrive as integer boxes.
  - The outcome of the client call, the download, and the existence of files are inputs.
  - The crop is written by `cv2.imwrite`, and the insertion pastes the face into the template. Neither image is modelled.
- Floating-point computations are not modelled:
  - the scaling of relative boxes to pixels;
  - the insertion pads `int(bw * 0.18)` and `int(bh * 0.20)`, which are the inputs `padX` and `padY`;
  - the fallback placement (utils.py:174-177), which is the input `fallback`;
  - the aspect-ratio resize and centring (utils.py:203-214).

  The crop pad `int(0.25 * m)` is modelled exactly as a truncated quarter.
- `ReplicateOutput.PyValue` is an abstraction of Python objects:
  - `hasattr`, `callable` and the call of a callable attribute are folded into each attribute's value, or into the fact that it raises;
  - `hasattr` (utils.py:117) is outside the `try` and swallows only `AttributeError`. A read that raises any other exception escapes `_extract_url`, and `stylize_with_replicate` then raises it without writing the debug dump. The model has no such read: `Raises` stands only for a call, or a read inside the `try`, that raises;
  - subclasses of `dict` or `str` that override `get` or `__str__` are not modelled;
  - for dictionaries and lists, the attribute pass and the `str()` fallback are taken as giving no address. A dictionary's only matching attribute is `get`, whose call without a key raises. The `str()` of a dictionary or list starts with "{", "[" or "(".
- Pipeline.Run: the debug dump `stylized.png.replicate-debug.txt` that a failing stylization may write is not added to the task directory. Only the two result images are tracked, and `Integration.StylizedImageAgrees` relates the files that `ReplicateOutput.Stylize` writes.
- Text.Strip: its contract states only the length bound. What `strip()` means is stated by the lemmas `TrimStart`, `TrimEnd`, `StripEmptyIffBlank`, `StripIdempotent` and `StripKeepsAbsent`.
- UploadForm.StaleReplyAfterReset: the stale-poll scenario is stated in three steps: `PendingJob`, `RepollAfterReset` and `StaleReplyAfterReset`. Each step takes the form the previous one leaves.
- The model requires that a reply method is only called with a request pending. The real component cannot receive a reply it did not ask for.
