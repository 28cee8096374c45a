/**
 * The upload form of the web client (frontend/components/UploadForm.tsx):
 * the six pieces of component state, the event handlers that change them,
 * and the three pure helpers the handlers use.
 *
 * Every handler that awaits an HTTP call is split at its `await` into the
 * part that issues the request (recorded in `inFlight`) and a `On...Reply`
 * method that runs the continuation with the reply as an input.  A re-poll
 * scheduled with `setTimeout` is recorded in `timers` and run by `OnTimer`.
 */
module UploadForm {
  import opened Base
  import opened Text

  /** The values the component stores in `status`; `None` is `null`, shown as "idle". */
  datatype Phase = Uploading | Processing | Done | Error | Downloading

  /** A browser `File`: only its name and declared media type matter here. */
  datatype File = File(name: string, mediaType: string)

  /** A request issued and not yet answered. */
  datatype Request =
    | UploadRequest(photo: File)   // POST {BACKEND}/upload, form data carrying only `photo`
    | StatusRequest(id: string)    // GET {BACKEND}/status/{id}
    | DownloadRequest(url: string) // GET url, as a blob

  /** The JSON body of a status reply; an absent or null field is `None`. */
  datatype StatusBody = StatusBody(
    status: Option<string>,
    resultUrl: Option<string>,     // `result_url`
    stylizedUrl: Option<string>,   // `stylized_url`
    error: Option<string>)

  /** How an axios call ended: a 2xx reply with its payload, or a rejection with its optional `message`. */
  datatype Reply<+T> = Success(payload: T) | Failure(message: Option<string>)

  /** A file saved through the temporary download link. */
  datatype SavedFile = SavedFile(name: string, mediaType: string)

  const NoPhotoMessage := "Please choose a photo to personalize."
  const BadDropMessage := "Please drop a valid image file."
  const UploadFailedMessage := "Upload failed"
  const StatusFailedMessage := "Status check failed"
  const ProcessingFailedMessage := "Processing failed"
  const DownloadFailedMessage := "Download failed"
  const DefaultFileName := "result.png"
  const DefaultBlobType := "image/png"
  /** The only form field the client sends with an upload. */
  const UploadFields: set<string> := {"photo"}

  // ---------------------------------------------------------------- pure helpers

  /** A result reference made absolute: kept if it starts with "http", else prefixed with the base address. */
  function Resolve(backend: string, url: string): (r: string)
    ensures EndsWith(r, url)
    ensures StartsWith(url, Http) ==> r == url
    ensures !StartsWith(url, Http) ==> StartsWith(r, backend) && |r| == |backend| + |url|
  {
    if StartsWith(url, Http) then url else backend + url
  }

  /** With an absolute base address every resolved reference is absolute. */
  lemma ResolveAbsolute(backend: string, url: string)
    requires StartsWith(backend, Http)
    ensures StartsWith(Resolve(backend, url), Http)
  {
    if !StartsWith(url, Http) {
      StartsWithAppend(backend, url, Http);
    }
  }

  /** With an absolute base address, resolving a resolved reference changes nothing. */
  lemma ResolveIdempotent(backend: string, url: string)
    requires StartsWith(backend, Http)
    ensures Resolve(backend, Resolve(backend, url)) == Resolve(backend, url)
  {
    ResolveAbsolute(backend, url);
  }

  /** With a base address that is not absolute, a second resolution prefixes the base a second time. */
  lemma ResolveTwiceWithRelativeBase(backend: string, url: string)
    requires |Http| <= |backend| && !StartsWith(backend, Http)
    requires !StartsWith(url, Http)
    ensures Resolve(backend, Resolve(backend, url)) == backend + backend + url
  {
    assert (backend + url)[..|Http|] == backend[..|Http|];
  }

  /** `result_url || stylized_url`: the canonical field wins whenever it is non-empty. */
  function PickUrl(body: StatusBody): (r: Option<string>)
    ensures Truthy(r) <==> Truthy(body.resultUrl) || Truthy(body.stylizedUrl)
    ensures Truthy(body.resultUrl) ==> r == body.resultUrl
    ensures Truthy(r) && !Truthy(body.resultUrl) ==> r == body.stylizedUrl
  {
    if Truthy(body.resultUrl) then body.resultUrl else body.stylizedUrl
  }

  /** The download name: the text after the last "/" of the address, or "result.png" if that is empty. */
  function FileName(url: string): (r: string)
    ensures r != "" && '/' !in r
  {
    var parts := Split(url, '/');
    var last := parts[|parts| - 1];
    if last == "" then DefaultFileName else last
  }

  /** An address ending in "/name" downloads as "name". */
  lemma FileNameOfPath(prefix: string, name: string)
    requires name != "" && '/' !in name
    ensures FileName(prefix + "/" + name) == name
  {
    LastPieceAfterSeparator(prefix, name, '/');
  }

  /** An address with no "/" downloads under itself, or under the default name when it is empty. */
  lemma FileNameOfBareName(url: string)
    requires '/' !in url
    ensures FileName(url) == if url == "" then DefaultFileName else url
  {
    SplitWithoutSeparator(url, '/');
  }

  /** An address ending in "/" downloads under the default name. */
  lemma FileNameOfDirectory(prefix: string)
    ensures FileName(prefix + "/") == DefaultFileName
  {
    assert prefix + "/" == prefix + ['/'] + "";
    LastPieceAfterSeparator(prefix, "", '/');
  }

  // ---------------------------------------------------------------- the component

  class Form {
    /** `BACKEND`, the configured service base address. */
    const backend: string

    var file: Option<File>
    var preview: Option<string>
    var taskId: Option<string>
    var status: Option<Phase>
    var resultUrl: Option<string>
    var errorMsg: Option<string>

    /** Requests issued whose replies have not been handled. */
    var inFlight: multiset<Request>
    /** Job ids with a re-poll scheduled by `setTimeout`; nothing ever cancels one. */
    var timers: multiset<string>
    /** Object URLs created for previews; the component never revokes any. */
    var previewUrls: seq<string>
    /** Addresses passed to `window.open`. */
    var openedUrls: seq<string>
    /** Files saved through the download link. */
    var saved: seq<SavedFile>

    /** A stored result reference is never empty, and is absolute whenever the base address is. */
    ghost predicate Valid()
      reads this
    {
      && (resultUrl.Some? ==> resultUrl.value != "" && (StartsWith(backend, Http) ==> StartsWith(resultUrl.value, Http)))
      && (preview.Some? ==> preview.value in previewUrls)
    }

    constructor (backend: string)
      ensures this.backend == backend && Valid()
      ensures file.None? && preview.None? && taskId.None? && status.None? && resultUrl.None? && errorMsg.None?
      ensures inFlight == multiset{} && timers == multiset{}
      ensures previewUrls == [] && openedUrls == [] && saved == []
    {
      this.backend := backend;
      file, preview, taskId, status, resultUrl, errorMsg := None, None, None, None, None, None;
      inFlight, timers := multiset{}, multiset{};
      previewUrls, openedUrls, saved := [], [], [];
    }

    /** `onFileChange`: takes the chosen file (no type check) and clears the error; `objectUrl` is what `URL.createObjectURL` returns. */
    method OnFileChange(f: Option<File>, objectUrl: string)
      requires Valid()
      modifies this`errorMsg, this`file, this`preview, this`previewUrls
      ensures Valid()
      ensures errorMsg.None? && file == f
      ensures f.Some? ==> preview == Some(objectUrl) && previewUrls == old(previewUrls) + [objectUrl]
      ensures f.None? ==> preview == old(preview) && previewUrls == old(previewUrls)
    {
      errorMsg := None;
      file := f;
      if f.Some? {
        previewUrls := previewUrls + [objectUrl];
        preview := Some(objectUrl);
      }
    }

    /** `onDrop`: takes the dropped file only if its media type starts with "image/", else reports it. */
    method OnDrop(f: Option<File>, objectUrl: string)
      requires Valid()
      modifies this`errorMsg, this`file, this`preview, this`previewUrls
      ensures Valid()
      ensures f.Some? && StartsWith(f.value.mediaType, "image/") ==>
        && file == f && preview == Some(objectUrl) && previewUrls == old(previewUrls) + [objectUrl]
        && errorMsg == old(errorMsg)
      ensures !(f.Some? && StartsWith(f.value.mediaType, "image/")) ==>
        && errorMsg == Some(BadDropMessage)
        && file == old(file) && preview == old(preview) && previewUrls == old(previewUrls)
    {
      if f.Some? && StartsWith(f.value.mediaType, "image/") {
        file := f;
        previewUrls := previewUrls + [objectUrl];
        preview := Some(objectUrl);
      } else {
        errorMsg := Some(BadDropMessage);
      }
    }

    /** `upload` up to its `await`: without a file only the error is set; otherwise one upload is issued. */
    method Upload()
      requires Valid()
      modifies this`errorMsg, this`status, this`inFlight
      ensures Valid()
      ensures file.None? ==> errorMsg == Some(NoPhotoMessage) && status == old(status) && inFlight == old(inFlight)
      ensures file.Some? ==>
        && status == Some(Uploading) && errorMsg.None?
        && inFlight == old(inFlight) + multiset{UploadRequest(file.value)}
    {
      if file.None? {
        errorMsg := Some(NoPhotoMessage);
        return;
      }
      var photo := file.value;
      status := Some(Uploading);
      errorMsg := None;
      inFlight := inFlight + multiset{UploadRequest(photo)};
    }

    /** The continuation of `upload`: store the job id and poll it once, or report the failure. */
    method OnUploadReply(photo: File, reply: Reply<string>)
      requires Valid() && UploadRequest(photo) in inFlight
      modifies this`taskId, this`status, this`errorMsg, this`inFlight
      ensures Valid()
      ensures reply.Success? ==>
        && taskId == Some(reply.payload) && status == Some(Processing) && errorMsg == old(errorMsg)
        && inFlight == old(inFlight) - multiset{UploadRequest(photo)} + multiset{StatusRequest(reply.payload)}
      ensures reply.Failure? ==>
        && taskId == old(taskId) && status == Some(Error) && errorMsg == Some(OrElse(reply.message, UploadFailedMessage))
        && inFlight == old(inFlight) - multiset{UploadRequest(photo)}
    {
      inFlight := inFlight - multiset{UploadRequest(photo)};
      match reply
      case Success(id) =>
        taskId := Some(id);
        status := Some(Processing);
        PollStatus(id);
      case Failure(message) =>
        status := Some(Error);
        errorMsg := Some(OrElse(message, UploadFailedMessage));
    }

    /** `pollStatus` up to its `await`: issues one status request for `id`. */
    method PollStatus(id: string)
      requires Valid()
      modifies this`inFlight
      ensures Valid()
      ensures inFlight == old(inFlight) + multiset{StatusRequest(id)}
    {
      inFlight := inFlight + multiset{StatusRequest(id)};
    }

    /** The continuation of `pollStatus`: a terminal status ends polling, anything else schedules one re-poll. */
    method OnStatusReply(id: string, reply: Reply<StatusBody>)
      requires Valid() && StatusRequest(id) in inFlight
      modifies this`status, this`resultUrl, this`errorMsg, this`timers, this`inFlight
      ensures Valid()
      ensures inFlight == old(inFlight) - multiset{StatusRequest(id)}
      ensures reply.Success? && reply.payload.status == Some("done") ==>
        && status == Some(Done) && errorMsg == old(errorMsg) && timers == old(timers)
        && resultUrl == if Truthy(PickUrl(reply.payload)) then Some(Resolve(backend, PickUrl(reply.payload).value)) else old(resultUrl)
      ensures reply.Success? && reply.payload.status == Some("error") ==>
        && status == Some(Error) && errorMsg == Some(OrElse(reply.payload.error, ProcessingFailedMessage))
        && resultUrl == old(resultUrl) && timers == old(timers)
      ensures reply.Success? && reply.payload.status != Some("done") && reply.payload.status != Some("error") ==>
        && timers == old(timers) + multiset{id}
        && status == old(status) && errorMsg == old(errorMsg) && resultUrl == old(resultUrl)
      ensures reply.Failure? ==>
        && status == Some(Error) && errorMsg == Some(OrElse(reply.message, StatusFailedMessage))
        && resultUrl == old(resultUrl) && timers == old(timers)
    {
      inFlight := inFlight - multiset{StatusRequest(id)};
      match reply
      case Success(body) =>
        ApplyStatus(id, body);
      case Failure(message) =>
        status := Some(Error);
        errorMsg := Some(OrElse(message, StatusFailedMessage));
    }

    /** The branch on the `status` field of a status reply. */
    method ApplyStatus(id: string, body: StatusBody)
      requires Valid()
      modifies this`status, this`resultUrl, this`errorMsg, this`timers
      ensures Valid()
      ensures body.status == Some("done") ==>
        && status == Some(Done) && errorMsg == old(errorMsg) && timers == old(timers)
        && resultUrl == if Truthy(PickUrl(body)) then Some(Resolve(backend, PickUrl(body).value)) else old(resultUrl)
      ensures body.status == Some("error") ==>
        && status == Some(Error) && errorMsg == Some(OrElse(body.error, ProcessingFailedMessage))
        && resultUrl == old(resultUrl) && timers == old(timers)
      ensures body.status != Some("done") && body.status != Some("error") ==>
        && timers == old(timers) + multiset{id}
        && status == old(status) && errorMsg == old(errorMsg) && resultUrl == old(resultUrl)
    {
      if body.status == Some("done") {
        status := Some(Done);
        var maybeUrl := PickUrl(body);
        if Truthy(maybeUrl) {
          if StartsWith(backend, Http) {
            ResolveAbsolute(backend, maybeUrl.value);
          }
          resultUrl := Some(Resolve(backend, maybeUrl.value));
        }
      } else if body.status == Some("error") {
        status := Some(Error);
        errorMsg := Some(OrElse(body.error, ProcessingFailedMessage));
      } else {
        timers := timers + multiset{id};
      }
    }

    /** The `setTimeout` callback: the scheduled re-poll of `id` runs `pollStatus(id)`, whatever happened meanwhile. */
    method OnTimer(id: string)
      requires Valid() && id in timers
      modifies this`timers, this`inFlight
      ensures Valid()
      ensures timers == old(timers) - multiset{id}
      ensures inFlight == old(inFlight) + multiset{StatusRequest(id)}
    {
      timers := timers - multiset{id};
      PollStatus(id);
    }

    /** `openResult`: opens the resolved result address, or does nothing without one. */
    method OpenResult()
      requires Valid()
      modifies this`openedUrls
      ensures Valid()
      ensures !Truthy(resultUrl) ==> openedUrls == old(openedUrls)
      ensures Truthy(resultUrl) ==> openedUrls == old(openedUrls) + [Resolve(backend, resultUrl.value)]
      ensures Truthy(resultUrl) && StartsWith(backend, Http) ==> openedUrls == old(openedUrls) + [resultUrl.value]
    {
      if !Truthy(resultUrl) {
        return;
      }
      var url := Resolve(backend, resultUrl.value);
      openedUrls := openedUrls + [url];
    }

    /** `downloadResult` up to its `await`: without a result nothing happens; otherwise "downloading" and one fetch. */
    method DownloadResult()
      requires Valid()
      modifies this`status, this`inFlight
      ensures Valid()
      ensures !Truthy(resultUrl) ==> status == old(status) && inFlight == old(inFlight)
      ensures Truthy(resultUrl) ==>
        status == Some(Downloading) && inFlight == old(inFlight) + multiset{DownloadRequest(Resolve(backend, resultUrl.value))}
    {
      if !Truthy(resultUrl) {
        return;
      }
      status := Some(Downloading);
      var url := Resolve(backend, resultUrl.value);
      inFlight := inFlight + multiset{DownloadRequest(url)};
    }

    /**
     * The continuation of `downloadResult`: save the blob under the last path segment and return to "done",
     * or report "Download failed".  The success payload is the blob's content type.
     */
    method OnDownloadReply(url: string, reply: Reply<Option<string>>)
      requires Valid() && DownloadRequest(url) in inFlight
      modifies this`status, this`errorMsg, this`saved, this`inFlight
      ensures Valid()
      ensures inFlight == old(inFlight) - multiset{DownloadRequest(url)}
      ensures reply.Success? ==>
        status == Some(Done) && errorMsg == old(errorMsg) && saved == old(saved) + [SavedFile(FileName(url), OrElse(reply.payload, DefaultBlobType))]
      ensures reply.Failure? ==>
        status == Some(Error) && errorMsg == Some(DownloadFailedMessage) && saved == old(saved)
    {
      inFlight := inFlight - multiset{DownloadRequest(url)};
      match reply
      case Success(blobType) =>
        var name := FileName(url);
        saved := saved + [SavedFile(name, OrElse(blobType, DefaultBlobType))];
        status := Some(Done);
      case Failure(_) =>
        errorMsg := Some(DownloadFailedMessage);
        status := Some(Error);
    }

    /** The Reset button: clears file, preview, result and status; the job id, the error, requests and re-polls stay. */
    method Reset()
      requires Valid()
      modifies this`file, this`preview, this`resultUrl, this`status
      ensures Valid()
      ensures file.None? && preview.None? && resultUrl.None? && status.None?
    {
      file := None;
      preview := None;
      resultUrl := None;
      status := None;
    }
  }

  /** A form whose upload of `photo` was accepted as job `id`, and whose first poll found the job still running. */
  method PendingJob(backend: string, photo: File, id: string, pending: StatusBody) returns (form: Form)
    requires pending.status != Some("done") && pending.status != Some("error")
    ensures fresh(form) && form.Valid() && form.backend == backend
    ensures form.taskId == Some(id) && id in form.timers
  {
    form := new Form(backend);
    form.OnFileChange(Some(photo), "blob:preview");
    form.Upload();
    form.OnUploadReply(photo, Success(id));
    form.OnStatusReply(id, Success(pending));
  }

  /**
   * Reset pressed while a re-poll is pending: the form looks idle, yet the
   * re-poll still fires and asks for the status of the discarded job.
   */
  method RepollAfterReset(form: Form, id: string)
    requires form.Valid() && id in form.timers
    modifies form
    ensures form.Valid()
    ensures form.file.None? && form.status.None? && form.resultUrl.None?
    ensures StatusRequest(id) in form.inFlight
  {
    form.Reset();
    form.OnTimer(id);
  }

  /** The "done" reply to that stale poll sets the phase and the result of the job the user discarded. */
  method StaleReplyAfterReset(form: Form, id: string, done: StatusBody)
    requires form.Valid() && form.file.None? && StatusRequest(id) in form.inFlight
    requires done.status == Some("done") && Truthy(done.resultUrl)
    modifies form
    ensures form.file.None?
    ensures form.status == Some(Done)
    ensures form.resultUrl == Some(Resolve(form.backend, done.resultUrl.value))
  {
    form.OnStatusReply(id, Success(done));
  }
}
