/**
 * The background job (backend/app/ai_pipeline.py): which template is used,
 * which files the job adds to the task directory, and the sequence of
 * `meta.json` records it writes, the last of which is what `/status` reports.
 * The outcomes of the two external steps (stylization and insertion into the
 * template) and the existence of the template files are inputs.
 */
module Pipeline {
  import opened Base
  import opened Text
  import opened Server

  const DefaultTemplatePath := "./templates/template.png"
  const StylizedFile := "stylized.png"
  const FinalFile := "final.png"
  const UsedTemplateAsStyle := "used_template_as_style"
  const InsertionFailed := "insertion_failed"
  const NoTemplate := "no_template"

  /** What the surroundings do during one run. */
  datatype World = World(
    uploadedExists: bool,  // `os.path.exists(uploaded_template_path)`
    defaultExists: bool,   // `os.path.exists(TEMPLATE_PATH)`
    stylize: Outcome,      // the call to `stylize_with_replicate`
    insert: Outcome)       // the call to `insert_face_into_template`

  /** The relative address of a result file, `/result/{id}/{name}`. */
  function ResultUrl(id: string, name: string): (u: string)
    ensures StartsWith(u, "/result/")
  {
    var u := "/result/" + id + "/" + name;
    assert u[..8] == "/result/";
    u
  }

  /** The uploaded template when one was given and exists, else the default one when it exists. */
  function EffectiveTemplate(uploaded: Option<string>, uploadedExists: bool, defaultExists: bool): (r: Option<string>)
    ensures r.Some? ==> (Truthy(uploaded) && uploadedExists && r == uploaded) || (defaultExists && r == Some(DefaultTemplatePath))
    ensures r.None? <==> !(Truthy(uploaded) && uploadedExists) && !defaultExists
    ensures Truthy(uploaded) && uploadedExists ==> r == uploaded
  {
    if Truthy(uploaded) && uploadedExists then uploaded
    else if defaultExists then Some(DefaultTemplatePath)
    else None
  }

  /** An uploaded template with no usable prompt is a style reference only. */
  function TemplateAsStyle(uploaded: Option<string>, prompt: Option<string>): (styleOnly: bool)
    ensures styleOnly <==> Truthy(uploaded) && (prompt.None? || Blank(prompt.value))
  {
    if prompt.Some? then
      StripEmptyIffBlank(prompt.value);
      Truthy(uploaded) && (!Truthy(prompt) || Strip(prompt.value) == "")
    else
      Truthy(uploaded)
  }

  /** The run calls `insert_face_into_template`. */
  function AttemptsInsertion(job: Job, w: World): (attempts: bool)
    ensures attempts <==>
      && w.stylize.Succeeded?
      && (!Truthy(job.templatePath) || (job.prompt.Some? && !Blank(job.prompt.value)))
      && ((Truthy(job.templatePath) && w.uploadedExists) || w.defaultExists)
  {
    && w.stylize.Succeeded?
    && !TemplateAsStyle(job.templatePath, job.prompt)
    && EffectiveTemplate(job.templatePath, w.uploadedExists, w.defaultExists).Some?
  }

  /** The record a run writes last. */
  function Terminal(job: Job, w: World): (m: Meta)
    ensures m.status == "done" || m.status == "error"
    ensures m.status == "error" <==> w.stylize.Raised?
    ensures m.resultUrl.Some? <==> AttemptsInsertion(job, w) && w.insert.Succeeded?
    ensures m.resultUrl.Some? ==> m.resultUrl.value == ResultUrl(job.taskId, FinalFile) && m.stylizedUrl.None?
    ensures m.stylizedUrl.Some? ==> m.stylizedUrl.value == ResultUrl(job.taskId, StylizedFile)
    ensures m.status == "done" ==> m.resultUrl.Some? != m.stylizedUrl.Some?
    ensures w.stylize.Raised? ==> m == Meta("error", None, None, None, Some(w.stylize.message))
    ensures m.resultUrl.Some? ==> m == Meta("done", Some(ResultUrl(job.taskId, FinalFile)), None, None, None)
    ensures w.stylize.Succeeded? && TemplateAsStyle(job.templatePath, job.prompt) ==>
      m == Meta("done", None, Some(ResultUrl(job.taskId, StylizedFile)), Some(UsedTemplateAsStyle), None)
    ensures w.stylize.Succeeded? && !TemplateAsStyle(job.templatePath, job.prompt)
            && EffectiveTemplate(job.templatePath, w.uploadedExists, w.defaultExists).None? ==>
      m == Meta("done", None, Some(ResultUrl(job.taskId, StylizedFile)), Some(NoTemplate), None)
  {
    var id := job.taskId;
    if w.stylize.Raised? then
      Meta("error", None, None, None, Some(w.stylize.message))
    else if TemplateAsStyle(job.templatePath, job.prompt) then
      Meta("done", None, Some(ResultUrl(id, StylizedFile)), Some(UsedTemplateAsStyle), None)
    else if EffectiveTemplate(job.templatePath, w.uploadedExists, w.defaultExists).Some? then
      if w.insert.Succeeded? then Meta("done", Some(ResultUrl(id, FinalFile)), None, None, None)
      else Meta("done", None, Some(ResultUrl(id, StylizedFile)), Some(InsertionFailed), Some(w.insert.message))
    else
      Meta("done", None, Some(ResultUrl(id, StylizedFile)), Some(NoTemplate), None)
  }

  /** The files a run adds to the task directory. */
  function Produced(job: Job, w: World): (files: set<string>)
    ensures files <= AllowedResults
    ensures StylizedFile in files <==> w.stylize.Succeeded?
    ensures FinalFile in files <==> AttemptsInsertion(job, w) && w.insert.Succeeded?
  {
    if w.stylize.Raised? then {}
    else if AttemptsInsertion(job, w) && w.insert.Succeeded? then {StylizedFile, FinalFile}
    else {StylizedFile}
  }

  /**
   * `pipeline(task_id, input_path, uploaded_template_path, user_prompt)`:
   * writes `processing`, then, in the order the code runs, the files the
   * external steps produce and the terminal record.
   */
  method Run(store: TaskStore, job: Job, w: World) returns (writes: seq<Meta>)
    requires job.taskId in store.tasks
    modifies store`tasks
    ensures writes == [StatusMeta("processing"), Terminal(job, w)]
    ensures store.tasks == old(store.tasks)[job.taskId :=
      TaskDir(old(store.tasks)[job.taskId].files + Produced(job, w), Some(writes[|writes| - 1]))]
  {
    var id := job.taskId;
    ghost var before := store.tasks;
    ghost var files := store.tasks[id].files;
    store.WriteMeta(id, StatusMeta("processing"));
    writes := [StatusMeta("processing")];
    Overwrite(before, id, before[id], store.tasks[id]);
    var effective := EffectiveTemplate(job.templatePath, w.uploadedExists, w.defaultExists);
    var m: Meta;
    if w.stylize.Raised? {
      m := Meta("error", None, None, None, Some(w.stylize.message));
      assert Produced(job, w) == {};
    } else {
      ghost var prev := store.tasks;
      store.AddFile(id, StylizedFile);
      Overwrite(before, id, prev[id], store.tasks[id]);
      if TemplateAsStyle(job.templatePath, job.prompt) {
        m := Meta("done", None, Some(ResultUrl(id, StylizedFile)), Some(UsedTemplateAsStyle), None);
        assert Produced(job, w) == {StylizedFile};
      } else if effective.Some? {
        if w.insert.Succeeded? {
          prev := store.tasks;
          store.AddFile(id, FinalFile);
          Overwrite(before, id, prev[id], store.tasks[id]);
          m := Meta("done", Some(ResultUrl(id, FinalFile)), None, None, None);
          assert Produced(job, w) == {StylizedFile, FinalFile};
        } else {
          m := Meta("done", None, Some(ResultUrl(id, StylizedFile)), Some(InsertionFailed), Some(w.insert.message));
          assert m == Terminal(job, w);
          assert Produced(job, w) == {StylizedFile};
        }
      } else {
        m := Meta("done", None, Some(ResultUrl(id, StylizedFile)), Some(NoTemplate), None);
        assert Produced(job, w) == {StylizedFile};
      }
    }
    assert m == Terminal(job, w);
    assert store.tasks[id].files == files + Produced(job, w);
    ghost var prev := store.tasks;
    store.WriteMeta(id, m);
    Overwrite(before, id, prev[id], store.tasks[id]);
    writes := writes + [m];
  }

  /** Writing a task's entry twice leaves only the second write. */
  lemma Overwrite(tasks: map<string, TaskDir>, id: string, first: TaskDir, second: TaskDir)
    ensures tasks[id := first][id := second] == tasks[id := second]
  {
  }

  // ---------------------------------------------------------------- properties of the decision table

  /** With a template used as style only, the outcome of insertion plays no part. */
  lemma TemplateAsStyleSkipsInsertion(job: Job, w: World, insert: Outcome)
    requires w.stylize.Succeeded? && TemplateAsStyle(job.templatePath, job.prompt)
    ensures Terminal(job, w) == Terminal(job, w.(insert := insert))
    ensures Terminal(job, w).note == Some(UsedTemplateAsStyle)
    ensures !AttemptsInsertion(job, w)
  {
  }

  /** A failed insertion still finishes the task, falling back to the stylized image. */
  lemma InsertionFailureStillDone(job: Job, w: World)
    requires AttemptsInsertion(job, w) && w.insert.Raised?
    ensures Terminal(job, w) == Meta("done", None, Some(ResultUrl(job.taskId, StylizedFile)), Some(InsertionFailed), Some(w.insert.message))
  {
  }

  /** With a prompt that is not blank, an existing uploaded template is pasted into. */
  lemma PromptWithTemplateInserts(job: Job, w: World)
    requires w.stylize.Succeeded? && Truthy(job.templatePath) && w.uploadedExists
    requires job.prompt.Some? && !Blank(job.prompt.value)
    ensures AttemptsInsertion(job, w)
  {
    StripEmptyIffBlank(job.prompt.value);
  }

  /** Every address a run records names a file that run produced, so the result route serves it. */
  lemma LinksAreProduced(job: Job, w: World)
    ensures var m := Terminal(job, w);
      && (m.resultUrl.Some? ==> m.resultUrl.value == ResultUrl(job.taskId, FinalFile) && FinalFile in Produced(job, w))
      && (m.stylizedUrl.Some? ==> m.stylizedUrl.value == ResultUrl(job.taskId, StylizedFile) && StylizedFile in Produced(job, w))
  {
  }

  // ---------------------------------------------------------------- the call as written

  const StylizeFunction := "stylize_with_replicate"
  /** The parameters `stylize_with_replicate` declares. */
  const StylizeParameters := ["input_face_path", "out_path", "style_reference"]
  /** The keyword arguments `pipeline` passes to it. */
  const PipelineKeywords := ["style_reference", "user_prompt"]

  /** The text of the TypeError Python raises for an unknown keyword argument. */
  function UnexpectedKeyword(callee: string, keyword: string): string
  {
    callee + "() got an unexpected keyword argument '" + keyword + "'"
  }

  /**
   * Python's binding of keyword arguments: the first keyword that names no
   * parameter raises a TypeError before the body runs.
   */
  function BindKeywords(callee: string, params: seq<string>, keywords: seq<string>): (r: Outcome)
    ensures r.Succeeded? <==> forall i :: 0 <= i < |keywords| ==> keywords[i] in params
    ensures r.Raised? ==>
      exists i :: (0 <= i < |keywords| && keywords[i] !in params
                   && r.message == UnexpectedKeyword(callee, keywords[i])
                   && forall j :: 0 <= j < i ==> keywords[j] in params)
    decreases |keywords|
  {
    if keywords == [] then Succeeded
    else if keywords[0] !in params then
      Raised(UnexpectedKeyword(callee, keywords[0]))
    else
      var r := BindKeywords(callee, params, keywords[1..]);
      assert forall i :: 1 <= i < |keywords| ==> keywords[i] == keywords[1..][i - 1];
      r
  }

  /** A call raises what binding raises, and otherwise whatever its body does. */
  function Call(binding: Outcome, body: Outcome): Outcome
  {
    if binding.Raised? then binding else body
  }

  /** "stylize_with_replicate() got an unexpected keyword argument 'user_prompt'" */
  const UnexpectedUserPrompt := UnexpectedKeyword(StylizeFunction, "user_prompt")

  /** The stylization call as written never reaches the body of `stylize_with_replicate`. */
  lemma StylizeCallRaises(body: Outcome)
    ensures Call(BindKeywords(StylizeFunction, StylizeParameters, PipelineKeywords), body) == Raised(UnexpectedUserPrompt)
  {
    assert "user_prompt" !in StylizeParameters;
    assert BindKeywords(StylizeFunction, StylizeParameters, ["user_prompt"]) == Raised(UnexpectedUserPrompt);
    assert StylizeParameters[2] == PipelineKeywords[0];
    assert PipelineKeywords[1..] == ["user_prompt"];
  }

  /** Hence, as written, every run ends in the error record, whatever the files and the services do. */
  lemma EveryRunFails(job: Job, w: World, body: Outcome)
    requires w.stylize == Call(BindKeywords(StylizeFunction, StylizeParameters, PipelineKeywords), body)
    ensures Terminal(job, w) == Meta("error", None, None, None, Some(UnexpectedUserPrompt))
    ensures Produced(job, w) == {}
  {
    StylizeCallRaises(body);
  }
}
