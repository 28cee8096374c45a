/**
 * How the parts meet: what the frontend sends against what the upload
 * endpoint demands, what a finished job leaves for the result routes, and
 * what the frontend shows and saves for it.
 */
module Integration {
  import opened Base
  import opened Text
  import UploadForm
  import opened Server
  import opened Pipeline
  import ReplicateOutput

  /** A `meta.json` record as the frontend reads it from the status reply. */
  function Wire(m: Meta): UploadForm.StatusBody
  {
    UploadForm.StatusBody(Some(m.status), m.resultUrl, m.stylizedUrl, m.error)
  }

  /**
   * What the form takes from a finished job's record: an address exactly when
   * stylization succeeded, naming a file the job produced, which the download
   * then saves under that file's name.
   */
  lemma FormPicksProducedFile(backend: string, job: Job, w: World)
    ensures var u := UploadForm.PickUrl(Wire(Terminal(job, w)));
      && (Truthy(u) <==> w.stylize.Succeeded?)
      && (Truthy(u) ==> exists name :: name in Produced(job, w) && u.value == ResultUrl(job.taskId, name)
                          && UploadForm.FileName(UploadForm.Resolve(backend, u.value)) == name
                          && UploadForm.FileName(UploadForm.Resolve(backend, UploadForm.Resolve(backend, u.value))) == name)
  {
    var m := Terminal(job, w);
    var u := UploadForm.PickUrl(Wire(m));
    if w.stylize.Succeeded? {
      var name := if m.resultUrl.Some? then FinalFile else StylizedFile;
      assert u == Some(ResultUrl(job.taskId, name));
      assert u.value[..8] == "/result/";
      DownloadKeepsResultName(backend, job.taskId, name);
      DownloadOfStoredKeepsName(backend, job.taskId, name);
    }
  }

  /**
   * The form sends its photo in the only field of its request, so the
   * server sees neither a template nor a prompt and refuses every upload:
   * no job starts, the status route knows no record, and the form shows the
   * transport's message for the 400 reply.
   */
  method FormUploadRefused(backend: string, photo: UploadForm.File, preview: string, id: string, transportMessage: Option<string>)
    returns (resp: Response, jobs: seq<Job>, status: Response, phase: Option<UploadForm.Phase>, shown: Option<string>)
    ensures resp == Json(400, ErrorBody(NeedInputMessage))
    ensures jobs == []
    ensures status == Json(404, MetaBody(StatusMeta("not_found")))
    ensures phase == Some(UploadForm.Error)
    ensures shown == Some(OrElse(transportMessage, UploadForm.UploadFailedMessage))
  {
    var form := new UploadForm.Form(backend);
    form.OnFileChange(Some(photo), preview);
    form.Upload();
    var store := new TaskStore();
    var hasTemplate := "template" in UploadForm.UploadFields;
    var prompt: Option<string> := if "prompt" in UploadForm.UploadFields then Some("") else None;
    resp := store.Upload(id, hasTemplate, prompt);
    jobs := store.started;
    status := store.Status(id);
    form.OnUploadReply(photo, UploadForm.Failure(transportMessage));
    phase, shown := form.status, form.errorMsg;
  }

  /**
   * An upload the server does accept (one with a prompt) runs, as written,
   * into the keyword error, which the status route then reports.
   */
  method AcceptedUploadRecordsError(id: string, prompt: string, w: World, body: Outcome) returns (status: Response)
    requires !Blank(prompt)
    requires w.stylize == Call(BindKeywords(StylizeFunction, StylizeParameters, PipelineKeywords), body)
    ensures status == Json(200, MetaBody(Meta("error", None, None, None, Some(UnexpectedUserPrompt))))
  {
    var store := new TaskStore();
    var resp := store.Upload(id, false, Some(prompt));
    var job := store.started[0];
    assert job.taskId == id && id in store.tasks;
    EveryRunFails(job, w, body);
    var writes := Run(store, job, w);
    assert store.tasks[id].meta == Some(Meta("error", None, None, None, Some(UnexpectedUserPrompt)));
    status := store.Status(id);
  }

  /** A form polling a job whose record is an error shows that record's error text, or "Processing failed". */
  method FormShowsRecordedError(backend: string, photo: UploadForm.File, id: string, m: Meta)
    returns (phase: Option<UploadForm.Phase>, shown: Option<string>)
    requires m.status == "error"
    ensures phase == Some(UploadForm.Error)
    ensures shown == Some(OrElse(m.error, UploadForm.ProcessingFailedMessage))
  {
    var form := new UploadForm.Form(backend);
    form.OnFileChange(Some(photo), "");
    form.Upload();
    form.OnUploadReply(photo, UploadForm.Success(id));
    form.OnStatusReply(id, UploadForm.Success(Wire(m)));
    phase, shown := form.status, form.errorMsg;
  }

  /** Hence the form that polls such a job shows the keyword error. */
  method AcceptedUploadShowsError(backend: string, photo: UploadForm.File, id: string, prompt: string,
                                  w: World, body: Outcome)
    returns (phase: Option<UploadForm.Phase>, shown: Option<string>)
    requires !Blank(prompt)
    requires w.stylize == Call(BindKeywords(StylizeFunction, StylizeParameters, PipelineKeywords), body)
    ensures phase == Some(UploadForm.Error)
    ensures shown == Some(UnexpectedUserPrompt)
  {
    var status := AcceptedUploadRecordsError(id, prompt, w, body);
    phase, shown := FormShowsRecordedError(backend, photo, id, status.body.meta);
  }

  /** Every address a finished job records is served by the generic result route once the job's files are in place. */
  lemma RecordedLinksAreServed(store: TaskStore, job: Job, w: World)
    requires job.taskId in store.tasks && Produced(job, w) <= store.tasks[job.taskId].files
    ensures var m := Terminal(job, w);
      && (m.resultUrl.Some? ==> store.ResultFile(job.taskId, FinalFile) == FileResponse(TaskPath(job.taskId, FinalFile), PngType))
      && (m.stylizedUrl.Some? ==> store.ResultFile(job.taskId, StylizedFile) == FileResponse(TaskPath(job.taskId, StylizedFile), PngType))
  {
    LinksAreProduced(job, w);
  }

  /** A recorded address, resolved against the backend and downloaded, is saved under the result file's own name. */
  lemma DownloadKeepsResultName(backend: string, id: string, name: string)
    requires name in AllowedResults
    ensures UploadForm.FileName(UploadForm.Resolve(backend, ResultUrl(id, name))) == name
  {
    var url := ResultUrl(id, name);
    assert url[0] == '/';
    NotHttp(url);
    assert backend + url == (backend + "/result/" + id) + "/" + name;
    UploadForm.FileNameOfPath(backend + "/result/" + id, name);
  }

  /**
   * The form stores the address resolved once and downloads it resolved
   * again; with a relative base address the base is then doubled, and the
   * download is still saved under the result file's own name.
   */
  lemma DownloadOfStoredKeepsName(backend: string, id: string, name: string)
    requires name in AllowedResults
    ensures UploadForm.FileName(UploadForm.Resolve(backend, UploadForm.Resolve(backend, ResultUrl(id, name)))) == name
  {
    var url := ResultUrl(id, name);
    var once := UploadForm.Resolve(backend, url);
    DownloadKeepsResultName(backend, id, name);
    if !StartsWith(once, Http) {
      assert url[0] == '/';
      NotHttp(url);
      assert backend + once == (backend + backend + "/result/" + id) + "/" + name;
      UploadForm.FileNameOfPath(backend + backend + "/result/" + id, name);
    }
  }

  /** The stylization step writes the job's stylized image exactly when the pipeline counts it as produced. */
  lemma StylizedImageAgrees(job: Job, w: World, tokenSet: bool, run: ReplicateOutput.ClientRun, fetch: string -> Outcome)
    requires w.stylize == ReplicateOutput.Stylize(tokenSet, TaskPath(job.taskId, StylizedFile), run, fetch).outcome
    ensures StylizedFile in Produced(job, w) <==>
      TaskPath(job.taskId, StylizedFile) in ReplicateOutput.Stylize(tokenSet, TaskPath(job.taskId, StylizedFile), run, fetch).written
  {
  }
}
