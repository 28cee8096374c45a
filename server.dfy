/**
 * The HTTP service (backend/app/main.py): the CORS origin list, the default
 * template fix-up, the upload rule, and the task store behind the upload,
 * status and result endpoints.  The task directory `./tasks/{id}` is a map
 * from task id to the names of the files in it and its `meta.json` record.
 */
module Server {
  import opened Base
  import opened Text

  const BaseTasks := "./tasks"
  const InputFile := "input.jpg"
  const TemplateFile := "template.png"
  const DuplicateTemplateFile := "template.png.png"
  const NeedInputMessage := "Please provide either a template image or a custom prompt."
  /** The only file names `result_file` serves. */
  const AllowedResults: set<string> := {"final.png", "stylized.png"}
  const PngType := "image/png"

  /** A `meta.json` record; a key the record does not hold is `None`. */
  datatype Meta = Meta(
    status: string,
    resultUrl: Option<string>,     // `result_url`
    stylizedUrl: Option<string>,   // `stylized_url`
    note: Option<string>,
    error: Option<string>)

  /** The record `{'status': s}`. */
  function StatusMeta(s: string): Meta
  {
    Meta(s, None, None, None, None)
  }

  /** One task directory: the files in it and its `meta.json`, if written. */
  datatype TaskDir = TaskDir(files: set<string>, meta: Option<Meta>)

  /** The three JSON bodies the endpoints return. */
  datatype Body = ErrorBody(error: string) | MetaBody(meta: Meta) | TaskIdBody(taskId: string)

  datatype Response = Json(code: int, body: Body) | FileResponse(path: string, mediaType: string)

  /** The arguments `upload` hands to `start_pipeline_async`. */
  datatype Job = Job(taskId: string, inputPath: string, templatePath: Option<string>, prompt: Option<string>)

  /** `os.path.join(BASE_TASKS, id, name)`. */
  function TaskPath(id: string, name: string): string
  {
    BaseTasks + "/" + id + "/" + name
  }

  // ---------------------------------------------------------------- CORS origins

  /** `[o.strip() for o in parts if o.strip()]`. */
  function CleanOrigins(parts: seq<string>): (r: seq<string>)
    ensures |r| <= |parts|
    ensures forall i :: 0 <= i < |r| ==> r[i] != ""
    decreases |parts|
  {
    if parts == [] then []
    else
      var o := Strip(parts[0]);
      (if o != "" then [o] else []) + CleanOrigins(parts[1..])
  }

  /** Cleaning comma-free entries gives comma-free origins. */
  lemma {:induction false} CleanOriginsCommaFree(parts: seq<string>)
    requires forall j :: 0 <= j < |parts| ==> ',' !in parts[j]
    ensures forall i :: 0 <= i < |CleanOrigins(parts)| ==> ',' !in CleanOrigins(parts)[i]
    decreases |parts|
  {
    if parts != [] {
      StripKeepsAbsent(parts[0], ',');
      CleanOriginsCommaFree(parts[1..]);
      CommaFreeCons(Strip(parts[0]), CleanOrigins(parts[1..]));
    }
  }

  /** Prepending a comma-free entry, or nothing, keeps every entry comma-free. */
  lemma CommaFreeCons(o: string, rest: seq<string>)
    requires ',' !in o
    requires forall i :: 0 <= i < |rest| ==> ',' !in rest[i]
    ensures var r := (if o != "" then [o] else []) + rest; forall i :: 0 <= i < |r| ==> ',' !in r[i]
  {
  }

  /** Every cleaned entry is already stripped. */
  lemma {:induction false} CleanOriginsStripped(parts: seq<string>)
    ensures forall i :: 0 <= i < |CleanOrigins(parts)| ==> Strip(CleanOrigins(parts)[i]) == CleanOrigins(parts)[i]
    decreases |parts|
  {
    if parts != [] {
      StripIdempotent(parts[0]);
      CleanOriginsStripped(parts[1..]);
      StrippedCons(Strip(parts[0]), CleanOrigins(parts[1..]));
    }
  }

  /** Prepending a stripped entry, or nothing, keeps every entry stripped. */
  lemma StrippedCons(o: string, rest: seq<string>)
    requires Strip(o) == o
    requires forall i :: 0 <= i < |rest| ==> Strip(rest[i]) == rest[i]
    ensures var r := (if o != "" then [o] else []) + rest; forall i :: 0 <= i < |r| ==> Strip(r[i]) == r[i]
  {
  }

  /**
   * The origins given to the CORS middleware: ALLOW_ORIGINS, or FRONTEND_URLS
   * when the first is unset or empty, split on commas, each entry stripped and
   * empty entries dropped; `["*"]` when neither variable is set and non-empty.
   */
  function Origins(allowOrigins: Option<string>, frontendUrls: Option<string>): (r: seq<string>)
    ensures !Truthy(allowOrigins) && !Truthy(frontendUrls) ==> r == ["*"]
    ensures Truthy(allowOrigins) || Truthy(frontendUrls) ==> forall i :: 0 <= i < |r| ==> r[i] != ""
  {
    var allowed := if Truthy(allowOrigins) then allowOrigins else frontendUrls;
    if Truthy(allowed) then CleanOrigins(Split(allowed.value, ',')) else ["*"]
  }

  /** With a setting in use, an origin is allowed exactly when it is the non-empty strip of one of its comma pieces. */
  lemma OriginsMembers(allowOrigins: Option<string>, frontendUrls: Option<string>, o: string)
    requires Truthy(allowOrigins) || Truthy(frontendUrls)
    ensures var setting := if Truthy(allowOrigins) then allowOrigins.value else frontendUrls.value;
      o in Origins(allowOrigins, frontendUrls) <==> o != "" && o in StripAll(Split(setting, ','))
  {
    var setting := if Truthy(allowOrigins) then allowOrigins.value else frontendUrls.value;
    CleanOriginsMembers(Split(setting, ','), o);
  }

  /** ALLOW_ORIGINS unset or empty leaves the decision to FRONTEND_URLS alone. */
  lemma OriginsFallBack(allowOrigins: Option<string>, frontendUrls: Option<string>)
    requires !Truthy(allowOrigins)
    ensures Origins(allowOrigins, frontendUrls) == Origins(frontendUrls, None)
  {
  }

  /** A set ALLOW_ORIGINS wins: FRONTEND_URLS plays no part. */
  lemma OriginsPreferAllow(allowOrigins: Option<string>, frontendUrls: Option<string>)
    requires Truthy(allowOrigins)
    ensures Origins(allowOrigins, frontendUrls) == CleanOrigins(Split(allowOrigins.value, ','))
  {
  }

  /** Every configured origin is free of commas and stripped of surrounding whitespace. */
  lemma OriginsClean(allowOrigins: Option<string>, frontendUrls: Option<string>)
    requires Truthy(allowOrigins) || Truthy(frontendUrls)
    ensures var r := Origins(allowOrigins, frontendUrls);
      forall i :: 0 <= i < |r| ==> ',' !in r[i] && Strip(r[i]) == r[i]
  {
    var allowed := if Truthy(allowOrigins) then allowOrigins else frontendUrls;
    CleanOriginsStripped(Split(allowed.value, ','));
    CleanOriginsCommaFree(Split(allowed.value, ','));
  }

  /** `[o.strip() for o in parts]`. */
  function StripAll(parts: seq<string>): (r: seq<string>)
    ensures |r| == |parts| && forall i :: 0 <= i < |parts| ==> r[i] == Strip(parts[i])
    decreases |parts|
  {
    if parts == [] then [] else [Strip(parts[0])] + StripAll(parts[1..])
  }

  /** An origin is kept exactly when it is the non-empty strip of some piece. */
  lemma {:induction false} CleanOriginsMembers(parts: seq<string>, o: string)
    ensures o in CleanOrigins(parts) <==> o != "" && o in StripAll(parts)
    decreases |parts|
  {
    if parts != [] {
      CleanOriginsMembers(parts[1..], o);
      var x := Strip(parts[0]);
      assert StripAll(parts) == [x] + StripAll(parts[1..]);
      assert CleanOrigins(parts) == (if x != "" then [x] else []) + CleanOrigins(parts[1..]);
    }
  }

  /** Pieces are kept in their order, each as its strip, empty strips dropped: " a, b " gives ["a", "b"]. */
  lemma CleanOriginsOfPair(a: string, b: string)
    requires Strip(a) != "" && Strip(b) != ""
    ensures CleanOrigins([a, b]) == [Strip(a), Strip(b)]
  {
    assert [a, b][1..] == [b];
    assert [b][1..] == [];
  }

  /** Cleaning entries that are already clean keeps them all, in order. */
  lemma {:induction false} CleanOriginsOfClean(parts: seq<string>)
    requires forall i :: 0 <= i < |parts| ==> parts[i] != "" && Strip(parts[i]) == parts[i]
    ensures CleanOrigins(parts) == parts
    decreases |parts|
  {
    if parts != [] {
      CleanOriginsOfClean(parts[1..]);
      assert parts == [parts[0]] + parts[1..];
    }
  }

  /** A comma-joined list of clean origins in ALLOW_ORIGINS comes back exactly, whatever FRONTEND_URLS holds. */
  lemma OriginsRoundTrip(origins: seq<string>, frontendUrls: Option<string>)
    requires |origins| >= 1
    requires forall i :: 0 <= i < |origins| ==> origins[i] != "" && ',' !in origins[i] && Strip(origins[i]) == origins[i]
    ensures Origins(Some(Join(origins, ',')), frontendUrls) == origins
  {
    var joined := Join(origins, ',');
    assert |joined| >= |origins[0]|;
    SplitJoin(origins, ',');
    CleanOriginsOfClean(origins);
  }

  /** A variable holding only blanks and commas gives an empty origin list, not the `["*"]` default. */
  lemma {:induction false} BlankOriginsAllowNothing(parts: seq<string>)
    requires forall i :: 0 <= i < |parts| ==> Blank(parts[i])
    ensures CleanOrigins(parts) == []
    decreases |parts|
  {
    if parts != [] {
      StripEmptyIffBlank(parts[0]);
      BlankOriginsAllowNothing(parts[1..]);
    }
  }

  /**
   * ALLOW_ORIGINS set to blanks and commas only (say " , ") is taken, yet
   * yields no origin at all rather than the `["*"]` default.
   */
  lemma BlankSettingAllowsNothing(allowOrigins: string, frontendUrls: Option<string>)
    requires allowOrigins != ""
    requires forall i :: 0 <= i < |Split(allowOrigins, ',')| ==> Blank(Split(allowOrigins, ',')[i])
    ensures Origins(Some(allowOrigins), frontendUrls) == []
  {
    BlankOriginsAllowNothing(Split(allowOrigins, ','));
  }

  // ---------------------------------------------------------------- default template

  /**
   * The start-up fix-up of the templates directory: `template.png.png` is
   * copied to `template.png` only when the latter is missing and the former
   * exists; `copyOk` says whether the copy succeeded (a failure is only logged).
   */
  function CopyDefaultTemplate(dir: set<string>, copyOk: bool): (r: set<string>)
    ensures TemplateFile in r <==> TemplateFile in dir || (DuplicateTemplateFile in dir && copyOk)
    ensures r - {TemplateFile} == dir - {TemplateFile}
    ensures TemplateFile in dir ==> r == dir
  {
    if TemplateFile !in dir && DuplicateTemplateFile in dir && copyOk then dir + {TemplateFile} else dir
  }

  // ---------------------------------------------------------------- upload rule

  /**
   * The refusal test of `upload`: no template file was sent and the prompt,
   * tested through `strip()`, is absent or holds nothing but whitespace.
   */
  function MissingInputs(hasTemplate: bool, prompt: Option<string>): (refused: bool)
    ensures refused <==> !hasTemplate && (prompt.None? || Blank(prompt.value))
  {
    if prompt.Some? then
      StripEmptyIffBlank(prompt.value);
      !hasTemplate && Strip(prompt.value) == ""
    else
      !hasTemplate
  }

  // ---------------------------------------------------------------- the task store

  class TaskStore {
    var tasks: map<string, TaskDir>
    /** The jobs handed to `start_pipeline_async`, in order. */
    var started: seq<Job>

    constructor ()
      ensures tasks == map[] && started == []
    {
      tasks := map[];
      started := [];
    }

    predicate Exists(id: string, name: string)
      reads this
    {
      id in tasks && name in tasks[id].files
    }

    /**
     * `POST /upload`; `taskId` stands for the fresh `uuid4()`.  The photo and a
     * sent template are written before the inputs are checked, so a refused
     * upload still leaves its directory, without `meta.json`.
     */
    method Upload(taskId: string, hasTemplate: bool, prompt: Option<string>) returns (resp: Response)
      modifies this
      ensures var dir := if taskId in old(tasks) then old(tasks)[taskId] else TaskDir({}, None);
              var files := dir.files + {InputFile} + (if hasTemplate then {TemplateFile} else {});
              if MissingInputs(hasTemplate, prompt) then
                && resp == Json(400, ErrorBody(NeedInputMessage))
                && tasks == old(tasks)[taskId := TaskDir(files, dir.meta)]
                && started == old(started)
              else
                && resp == Json(200, TaskIdBody(taskId))
                && tasks == old(tasks)[taskId := TaskDir(files, Some(StatusMeta("queued")))]
                && started == old(started) + [Job(taskId, TaskPath(taskId, InputFile),
                                                  if hasTemplate then Some(TaskPath(taskId, TemplateFile)) else None, prompt)]
    {
      var dir := if taskId in tasks then tasks[taskId] else TaskDir({}, None);
      var files := dir.files + {InputFile} + (if hasTemplate then {TemplateFile} else {});
      var templatePath: Option<string> := if hasTemplate then Some(TaskPath(taskId, TemplateFile)) else None;
      if templatePath.None? && (prompt.None? || Strip(prompt.value) == "") {
        tasks := tasks[taskId := dir.(files := files)];
        return Json(400, ErrorBody(NeedInputMessage));
      }
      tasks := tasks[taskId := TaskDir(files, Some(StatusMeta("queued")))];
      started := started + [Job(taskId, TaskPath(taskId, InputFile), templatePath, prompt)];
      resp := Json(200, TaskIdBody(taskId));
    }

    /** `GET /status/{id}`: the stored record unchanged, or 404 `not_found` when there is none. */
    function Status(id: string): (r: Response)
      reads this
      ensures r == Json(404, MetaBody(StatusMeta("not_found"))) <==> id !in tasks || tasks[id].meta.None?
      ensures id in tasks && tasks[id].meta.Some? ==> r == Json(200, MetaBody(tasks[id].meta.value))
    {
      if id !in tasks || tasks[id].meta.None? then Json(404, MetaBody(StatusMeta("not_found")))
      else Json(200, MetaBody(tasks[id].meta.value))
    }

    /** `GET /result/{id}/final.png`, the route declared first for that name. */
    function ResultImage(id: string): (r: Response)
      reads this
      ensures r.FileResponse? <==> Exists(id, "final.png")
      ensures r.FileResponse? ==> r == FileResponse(TaskPath(id, "final.png"), PngType)
      ensures !r.FileResponse? ==> r == Json(404, MetaBody(StatusMeta("not_ready")))
    {
      if !Exists(id, "final.png") then Json(404, MetaBody(StatusMeta("not_ready")))
      else FileResponse(TaskPath(id, "final.png"), PngType)
    }

    /** `GET /result/{id}/{filename}`: 403 outside the allow-list whether or not the file exists, 404 while missing. */
    function ResultFile(id: string, filename: string): (r: Response)
      reads this
      ensures r == Json(403, MetaBody(StatusMeta("forbidden"))) <==> filename !in AllowedResults
      ensures r == Json(404, MetaBody(StatusMeta("not_ready"))) <==> filename in AllowedResults && !Exists(id, filename)
      ensures r.FileResponse? <==> filename in AllowedResults && Exists(id, filename)
      ensures r.FileResponse? ==> r == FileResponse(TaskPath(id, filename), PngType)
    {
      if filename !in AllowedResults then Json(403, MetaBody(StatusMeta("forbidden")))
      else if !Exists(id, filename) then Json(404, MetaBody(StatusMeta("not_ready")))
      else FileResponse(TaskPath(id, filename), PngType)
    }

    /** `write_meta`: overwrites the task's `meta.json`. */
    method WriteMeta(id: string, m: Meta)
      requires id in tasks
      modifies this`tasks
      ensures tasks == old(tasks)[id := old(tasks)[id].(meta := Some(m))]
    {
      tasks := tasks[id := tasks[id].(meta := Some(m))];
    }

    /** A file written into the task directory by the pipeline. */
    method AddFile(id: string, name: string)
      requires id in tasks
      modifies this`tasks
      ensures tasks == old(tasks)[id := old(tasks)[id].(files := old(tasks)[id].files + {name})]
    {
      tasks := tasks[id := tasks[id].(files := tasks[id].files + {name})];
    }
  }

  /** The legacy `final.png` route answers exactly as the generic result route does for that name. */
  lemma FinalRoutesAgree(store: TaskStore, id: string)
    ensures store.ResultImage(id) == store.ResultFile(id, "final.png")
  {
  }
}
