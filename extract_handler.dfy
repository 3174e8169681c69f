/**
 * The extraction step (`ExtractHandler.execute`): make sure the Content
 * Understanding analyzer for the run's schema exists, provisioning it when the
 * existence check raises an HTTP error; analyze the first source file; record
 * the result as a new `ExtractedContent` artifact with one log entry; return
 * the step result.
 *
 * Every collaborator (the analyzer service, the schema catalog, the blob store,
 * the schema loader and template builder, result validation) is an abstract
 * outcome given by `Env`. `Run` is the specification: the calls made, in order,
 * the step's outcome and whether an artifact is added. `Execute` performs the
 * step on a `DataPipeline` and is proved to do what `Run` says.
 */
module ExtractHandler {
  import opened Wrappers
  import opened Json
  import opened Pipeline

  const OutputFileName: string := "content_understanding_output.json"
  const LogMessage: string := "Content Understanding Extraction Result has been added"

  /** How `get_analyzer_detail_by_id` behaves: it returns, raises `HTTPError`, or raises something else. */
  datatype DetailOutcome = Found | HttpError | OtherError

  /** The behaviour of every collaborator for one execution of the step. */
  datatype Env = Env(
    detail: DetailOutcome,
    schema: Outcome<SchemaRecord>,  // Schema.get_schema
    schemaModel: Outcome<Token>,    // load_schema_from_blob
    template: Outcome<Token>,       // build_content_understanding_schema
    create: Outcome<Token>,         // begin_create_analyzer
    stream: Outcome<Token>,         // download_stream of the source file
    job: Outcome<Token>,            // begin_analyze_stream
    response: Outcome<Token>,       // poll_result
    analyzed: Outcome<Token>,       // AnalyzedResult(**response)
    upload: Outcome<Token>)         // upload_json_text

  /** A call into a collaborator, with the arguments that identify what is asked for. */
  datatype Call =
    | GetAnalyzerDetail(analyzerId: string)
    | GetSchema(schemaId: string)
    | LoadSchemaFromBlob(container: string, blobName: string, moduleName: string)
    | BuildSchema(schemaModel: Token)
    | CreateAnalyzer(analyzerId: string, template: Token)
    | DownloadStream(file: SourceFile, container: string)
    | AnalyzeStream(analyzerId: string, stream: Token)
    | PollResult(job: Token)
    | ParseAnalyzedResult(response: Token)
    | UploadJsonText(fileName: string, container: string, content: Token)

  /** The calls that provision an analyzer. */
  predicate IsProvisioning(c: Call) {
    c.GetSchema? || c.LoadSchemaFromBlob? || c.BuildSchema? || c.CreateAnalyzer?
  }

  /** The analyzer (or schema) id a call is made for, if it names one. */
  function AnalyzerOf(c: Call): Option<string> {
    match c
    case GetAnalyzerDetail(a) => Some(a)
    case GetSchema(s) => Some(s)
    case CreateAnalyzer(a, _) => Some(a)
    case AnalyzeStream(a, _) => Some(a)
    case _ => None
  }

  /**
   * The `except HTTPError` branch: fetch the schema record, load its model,
   * build the template, create the analyzer. Each call is made only when the
   * one before it returned, and a raising call ends the phase with its error.
   */
  function Provision(analyzerId: string, cfg: Config, env: Env): (p: Phase<Call, ()>)
    ensures 1 <= |p.calls| <= 4 && p.calls[0] == GetSchema(analyzerId)
    ensures forall c :: c in p.calls ==> IsProvisioning(c) && (AnalyzerOf(c).None? || AnalyzerOf(c).value == analyzerId)
    ensures env.schema.Returns? ==>
              |p.calls| >= 2 &&
              p.calls[1] == LoadSchemaFromBlob(SchemaContainer(cfg, analyzerId),
                                               env.schema.value.fileName, env.schema.value.className)
    ensures env.schema.Returns? && env.schemaModel.Returns? ==>
              |p.calls| >= 3 && p.calls[2] == BuildSchema(env.schemaModel.value)
    ensures env.schema.Returns? && env.schemaModel.Returns? && env.template.Returns? ==>
              |p.calls| == 4 && p.calls[3] == CreateAnalyzer(analyzerId, env.template.value)
    ensures forall i :: 0 <= i < |p.calls| && p.calls[i].CreateAnalyzer? ==> i == 3
    ensures p.result.Ok? <==> ProvisionSucceeds(env)
    ensures p.result.Err? ==> p.result.error == Raised(p.calls[|p.calls| - 1])
    ensures env.schema.Raises? ==> p == Phase([GetSchema(analyzerId)], Err(Raised(GetSchema(analyzerId))))
    ensures env.schema.Returns? && env.schemaModel.Raises? ==>
              |p.calls| == 2 && p.result == Err(Raised(p.calls[1]))
    ensures env.schema.Returns? && env.schemaModel.Returns? && env.template.Raises? ==>
              |p.calls| == 3 && p.result == Err(Raised(p.calls[2]))
    ensures env.schema.Returns? && env.schemaModel.Returns? && env.template.Returns? && env.create.Raises? ==>
              p.result == Err(Raised(p.calls[3]))
  {
    var getSchema := GetSchema(analyzerId);
    match env.schema
    case Raises => Phase([getSchema], Err(Raised(getSchema)))
    case Returns(record) =>
      var load := LoadSchemaFromBlob(SchemaContainer(cfg, analyzerId), record.fileName, record.className);
      match env.schemaModel
      case Raises => Phase([getSchema, load], Err(Raised(load)))
      case Returns(model) =>
        var build := BuildSchema(model);
        match env.template
        case Raises => Phase([getSchema, load, build], Err(Raised(build)))
        case Returns(template) =>
          var create := CreateAnalyzer(analyzerId, template);
          Phase([getSchema, load, build, create],
                if env.create.Raises? then Err(Raised(create)) else Ok(()))
  }

  /**
   * `begin_analyze_stream` on the downloaded first source file, then
   * `poll_result` and `AnalyzedResult(**response)`: each call takes what the
   * one before it returned.
   */
  function Analyze(analyzerId: string, sources: seq<SourceFile>, cfg: Config, env: Env): (p: Phase<Call, Token>)
    ensures forall c :: c in p.calls ==> !IsProvisioning(c) && (AnalyzerOf(c).None? || AnalyzerOf(c).value == analyzerId)
    ensures |sources| == 0 ==> p.calls == [] && p.result == Err(Python(IndexError))
    ensures |sources| > 0 ==> 1 <= |p.calls| && p.calls[0] == DownloadStream(sources[0], cfg.cpsProcesses)
    ensures forall j :: 0 <= j < |p.calls| && p.calls[j].AnalyzeStream? ==> j == 1
    ensures p.result.Ok? <==> |sources| > 0 && AnalysisSucceeds(env)
    ensures |sources| > 0 && env.stream.Returns? ==>
              |p.calls| >= 2 && p.calls[1] == AnalyzeStream(analyzerId, env.stream.value)
    ensures |sources| > 0 && env.stream.Returns? && env.job.Returns? ==>
              |p.calls| >= 3 && p.calls[2] == PollResult(env.job.value)
    ensures |sources| > 0 && env.stream.Returns? && env.job.Returns? && env.response.Returns? ==>
              |p.calls| == 4 && p.calls[3] == ParseAnalyzedResult(env.response.value)
    ensures p.result.Ok? ==> p.result.value == env.analyzed.value
    ensures |p.calls| > 0 && p.result.Err? ==> p.result.error == Raised(p.calls[|p.calls| - 1])
    ensures forall c :: c in p.calls ==> AnalysisCallFlow(c, analyzerId, sources, cfg, env)
  {
    if |sources| == 0 then Phase([], Err(Python(IndexError)))
    else
      var download := DownloadStream(sources[0], cfg.cpsProcesses);
      match env.stream
      case Raises => Phase([download], Err(Raised(download)))
      case Returns(stream) =>
        var analyze := AnalyzeStream(analyzerId, stream);
        match env.job
        case Raises => Phase([download, analyze], Err(Raised(analyze)))
        case Returns(job) =>
          var poll := PollResult(job);
          match env.response
          case Raises => Phase([download, analyze, poll], Err(Raised(poll)))
          case Returns(response) =>
            var parse := ParseAnalyzedResult(response);
            match env.analyzed
            case Raises => Phase([download, analyze, poll, parse], Err(Raised(parse)))
            case Returns(result) => Phase([download, analyze, poll, parse], Ok(result))
  }

  /**
   * Each analysis call takes what the call before it returned: the download
   * is of source file 0, the submission carries the downloaded stream, the poll
   * the submitted job, the parse the polled response, and the upload the parsed
   * result.
   */
  predicate AnalysisCallFlow(c: Call, analyzerId: string, sources: seq<SourceFile>, cfg: Config, env: Env) {
    (c.DownloadStream? ==> |sources| > 0 && c == DownloadStream(sources[0], cfg.cpsProcesses)) &&
    (c.AnalyzeStream? ==> env.stream.Returns? && c == AnalyzeStream(analyzerId, env.stream.value)) &&
    (c.PollResult? ==> env.job.Returns? && c == PollResult(env.job.value)) &&
    (c.ParseAnalyzedResult? ==> env.response.Returns? && c == ParseAnalyzedResult(env.response.value)) &&
    (c.UploadJsonText? ==> env.analyzed.Returns? && c == UploadJsonText(OutputFileName, cfg.cpsProcesses, env.analyzed.value))
  }

  /** Every collaborator on the provisioning path returns. */
  predicate ProvisionSucceeds(env: Env) {
    env.schema.Returns? && env.schemaModel.Returns? && env.template.Returns? && env.create.Returns?
  }

  /** Every collaborator on the analysis path returns. */
  predicate AnalysisSucceeds(env: Env) {
    env.stream.Returns? && env.job.Returns? && env.response.Returns? && env.analyzed.Returns?
  }

  /**
   * The `try`/`except HTTPError` block: the existence check, and provisioning
   * when it raised an HTTP error.
   */
  function EnsureAnalyzerPhase(analyzerId: string, cfg: Config, env: Env): (p: Phase<Call, ()>)
    ensures |p.calls| >= 1 && p.calls[0] == GetAnalyzerDetail(analyzerId)
    ensures env.detail != HttpError ==> p.calls == [GetAnalyzerDetail(analyzerId)]
    ensures forall c :: c in p.calls ==> c.GetAnalyzerDetail? || IsProvisioning(c)
    ensures env.detail == HttpError ==> p.calls[1..] == Provision(analyzerId, cfg, env).calls
    ensures p.result.Ok? <==> env.detail == Found || (env.detail == HttpError && ProvisionSucceeds(env))
    ensures p.result.Err? ==> p.result.error == Raised(p.calls[|p.calls| - 1])
  {
    var check := GetAnalyzerDetail(analyzerId);
    match env.detail
    case OtherError => Phase([check], Err(Raised(check)))
    case Found => Phase([check], Ok(()))
    case HttpError =>
      var provision := Provision(analyzerId, cfg, env);
      Phase([check] + provision.calls, provision.result)
  }

  /**
   * The specification of `ExtractHandler.execute` for a run in state
   * (`status`, `sources`), by the handler named `handlerName`.
   */
  function Run(status: PipelineStatus, sources: seq<SourceFile>, cfg: Config, handlerName: string, env: Env): (r: StepRun<Call>)
    ensures |r.calls| >= 1 && r.calls[0] == GetAnalyzerDetail(status.schemaId)
    ensures r.outcome.Ok? ==> r.addsFile
    ensures r.addsFile ==> r.calls[|r.calls| - 1].UploadJsonText?
  {
    var analyzerId := status.schemaId;
    var ensured := EnsureAnalyzerPhase(analyzerId, cfg, env);
    if ensured.result.Err? then StepRun(ensured.calls, Err(ensured.result.error), false)
    else
      var analysis := Analyze(analyzerId, sources, cfg, env);
      var before := ensured.calls + analysis.calls;
      if analysis.result.Err? then StepRun(before, Err(analysis.result.error), false)
      else
        var upload := UploadJsonText(OutputFileName, cfg.cpsProcesses, analysis.result.value);
        StepRun(before + [upload],
                if env.upload.Raises? then Err(Raised(upload))
                else Ok(StepResult(status.processId, handlerName, SuccessResult(OutputFileName))),
                true)
  }

  /** The existence check comes first, and every call that names an analyzer names the run's schema id. */
  lemma AnalyzerIdIsSchemaId(status: PipelineStatus, sources: seq<SourceFile>, cfg: Config, handlerName: string, env: Env)
    ensures var r := Run(status, sources, cfg, handlerName, env);
            |r.calls| >= 1 && r.calls[0] == GetAnalyzerDetail(status.schemaId) &&
            forall c :: c in r.calls ==> AnalyzerOf(c).None? || AnalyzerOf(c).value == status.schemaId
  {
  }

  /** When the existence check does not raise an HTTP error, nothing is provisioned. */
  lemma NoProvisioningUnlessHttpError(status: PipelineStatus, sources: seq<SourceFile>, cfg: Config, handlerName: string, env: Env)
    requires env.detail != HttpError
    ensures forall c :: c in Run(status, sources, cfg, handlerName, env).calls ==> !IsProvisioning(c)
  {
  }

  /** Any other error from the existence check propagates at once, with nothing else called or added. */
  lemma OtherErrorPropagates(status: PipelineStatus, sources: seq<SourceFile>, cfg: Config, handlerName: string, env: Env)
    requires env.detail == OtherError
    ensures var r := Run(status, sources, cfg, handlerName, env);
            r.calls == [GetAnalyzerDetail(status.schemaId)] &&
            r.outcome == Err(Raised(GetAnalyzerDetail(status.schemaId))) && !r.addsFile
  {
  }

  /**
   * After an HTTP error from the existence check, provisioning runs in order:
   * the catalog lookup by the schema id, the load from the schema's container
   * with the record's file and class names, the template build from the loaded
   * model, and one create-analyzer call with that template.
   */
  lemma HttpErrorProvisionsInOrder(status: PipelineStatus, sources: seq<SourceFile>, cfg: Config, handlerName: string, env: Env)
    requires env.detail == HttpError
    ensures var r := Run(status, sources, cfg, handlerName, env);
            var id := status.schemaId;
            |r.calls| >= 2 && r.calls[1] == GetSchema(id) &&
            (env.schema.Returns? ==>
               |r.calls| >= 3 &&
               r.calls[2] == LoadSchemaFromBlob(SchemaContainer(cfg, id), env.schema.value.fileName, env.schema.value.className)) &&
            (env.schema.Returns? && env.schemaModel.Returns? ==>
               |r.calls| >= 4 && r.calls[3] == BuildSchema(env.schemaModel.value)) &&
            (env.schema.Returns? && env.schemaModel.Returns? && env.template.Returns? ==>
               |r.calls| >= 5 && r.calls[4] == CreateAnalyzer(id, env.template.value)) &&
            (env.schema.Raises? ==> |r.calls| == 2 && r.outcome == Err(Raised(GetSchema(id)))) &&
            (env.schema.Returns? && env.schemaModel.Raises? ==>
               |r.calls| == 3 && r.outcome == Err(Raised(r.calls[2]))) &&
            (env.schema.Returns? && env.schemaModel.Returns? && env.template.Raises? ==>
               |r.calls| == 4 && r.outcome == Err(Raised(r.calls[3]))) &&
            (env.schema.Returns? && env.schemaModel.Returns? && env.template.Returns? && env.create.Raises? ==>
               |r.calls| == 5 && r.outcome == Err(Raised(r.calls[4])))
  {
  }

  /** `begin_create_analyzer` is called at most once, and only as the fifth call. */
  lemma CreateAnalyzerAtMostOnce(status: PipelineStatus, sources: seq<SourceFile>, cfg: Config, handlerName: string, env: Env)
    ensures var r := Run(status, sources, cfg, handlerName, env);
            forall i :: 0 <= i < |r.calls| && r.calls[i].CreateAnalyzer? ==> i == 4
  {
  }

  /** A provisioning call that raises ends the step: nothing is analyzed and no artifact is added. */
  lemma ProvisioningFailureStops(status: PipelineStatus, sources: seq<SourceFile>, cfg: Config, handlerName: string, env: Env)
    requires env.detail == HttpError && !ProvisionSucceeds(env)
    ensures var r := Run(status, sources, cfg, handlerName, env);
            r.outcome.Err? && r.outcome.error.Raised? && IsProvisioning(r.outcome.error.call) &&
            !r.addsFile && forall c :: c in r.calls ==> !c.AnalyzeStream?
  {
  }

  /** Analysis is submitted after every provisioning call, directly after the download of source file 0. */
  lemma AnalysisFollowsProvisioning(status: PipelineStatus, sources: seq<SourceFile>, cfg: Config, handlerName: string, env: Env)
    ensures var r := Run(status, sources, cfg, handlerName, env);
            (forall i, j :: (0 <= i < |r.calls| && 0 <= j < |r.calls| &&
                             IsProvisioning(r.calls[i]) && r.calls[j].AnalyzeStream?) ==> i < j) &&
            (forall j :: 0 <= j < |r.calls| && r.calls[j].AnalyzeStream? ==>
               |sources| > 0 && 0 < j && r.calls[j - 1] == DownloadStream(sources[0], cfg.cpsProcesses))
  {
    var r := Run(status, sources, cfg, handlerName, env);
    var e := EnsureAnalyzerPhase(status.schemaId, cfg, env);
    RunTail(status, sources, cfg, handlerName, env);
    CheckThenAnalysis(e.calls, r.calls[|e.calls|..], sources, cfg);
  }

  /**
   * A run is the calls of the existence check and provisioning, then calls
   * with no provisioning among them, in which the submission is second, after
   * the download.
   */
  lemma RunTail(status: PipelineStatus, sources: seq<SourceFile>, cfg: Config, handlerName: string, env: Env)
    ensures var r := Run(status, sources, cfg, handlerName, env);
            var e := EnsureAnalyzerPhase(status.schemaId, cfg, env);
            var t := r.calls[|e.calls|..];
            |e.calls| <= |r.calls| && r.calls == e.calls + t &&
            (forall c :: c in t ==> !IsProvisioning(c)) &&
            (forall k :: 0 <= k < |t| && t[k].AnalyzeStream? ==>
               k == 1 && |sources| > 0 && t[0] == DownloadStream(sources[0], cfg.cpsProcesses))
  {
    var r := Run(status, sources, cfg, handlerName, env);
    var e := EnsureAnalyzerPhase(status.schemaId, cfg, env);
    var t := r.calls[|e.calls|..];
    RunLayout(status, sources, cfg, handlerName, env);
    assert r.calls == e.calls + t;
    TailOrder(status.schemaId, sources, cfg, env, t, r.calls[|r.calls| - 1]);
  }

  /** Calls of the check and provisioning, then calls in which the submission is second, after the download. */
  lemma CheckThenAnalysis(pre: seq<Call>, t: seq<Call>, sources: seq<SourceFile>, cfg: Config)
    requires forall c :: c in pre ==> c.GetAnalyzerDetail? || IsProvisioning(c)
    requires forall c :: c in t ==> !IsProvisioning(c)
    requires forall k :: 0 <= k < |t| && t[k].AnalyzeStream? ==>
               k == 1 && |sources| > 0 && t[0] == DownloadStream(sources[0], cfg.cpsProcesses)
    ensures var r := pre + t;
            (forall i, j :: (0 <= i < |r| && 0 <= j < |r| && IsProvisioning(r[i]) && r[j].AnalyzeStream?) ==> i < j) &&
            (forall j :: 0 <= j < |r| && r[j].AnalyzeStream? ==>
               |sources| > 0 && 0 < j && r[j - 1] == DownloadStream(sources[0], cfg.cpsProcesses))
  {
    var r, n := pre + t, |pre|;
    assert forall k :: 0 <= k < n ==> r[k] == pre[k] && r[k] in pre;
    assert forall k :: n <= k < |r| ==> r[k] == t[k - n] && r[k] in t;
  }

  /**
   * The calls of a run are those of the existence check and provisioning,
   * then, once that phase succeeded, those of the analysis and the upload.
   */
  lemma RunLayout(status: PipelineStatus, sources: seq<SourceFile>, cfg: Config, handlerName: string, env: Env)
    ensures var r := Run(status, sources, cfg, handlerName, env);
            var e := EnsureAnalyzerPhase(status.schemaId, cfg, env);
            var a := Analyze(status.schemaId, sources, cfg, env);
            |r.calls| >= |e.calls| && r.calls[..|e.calls|] == e.calls &&
            (e.result.Err? ==> r.calls == e.calls) &&
            (e.result.Ok? ==> r.calls[|e.calls|..] == a.calls ||
                              (r.calls[|e.calls|..] == a.calls + [r.calls[|r.calls| - 1]] && r.calls[|r.calls| - 1].UploadJsonText?))
  {
    var r := Run(status, sources, cfg, handlerName, env);
    var e := EnsureAnalyzerPhase(status.schemaId, cfg, env);
    if e.result.Ok? {
      var a := Analyze(status.schemaId, sources, cfg, env);
      if a.result.Ok? {
        var upload := UploadJsonText(OutputFileName, cfg.cpsProcesses, a.result.value);
        assert r.calls == e.calls + a.calls + [upload];
        assert r.calls[|e.calls|..] == a.calls + [upload];
      } else {
        assert r.calls == e.calls + a.calls;
      }
    }
  }

  /** What the analysis and the upload call, in order: no provisioning, and the submission second, after the download. */
  lemma TailOrder(analyzerId: string, sources: seq<SourceFile>, cfg: Config, env: Env, t: seq<Call>, upload: Call)
    requires var a := Analyze(analyzerId, sources, cfg, env);
             t == [] || t == a.calls || (t == a.calls + [upload] && upload.UploadJsonText?)
    ensures forall c :: c in t ==> !IsProvisioning(c)
    ensures forall k :: 0 <= k < |t| && t[k].AnalyzeStream? ==>
              k == 1 && |sources| > 0 && t[0] == DownloadStream(sources[0], cfg.cpsProcesses)
  {
    var a := Analyze(analyzerId, sources, cfg, env);
    assert forall k :: 0 <= k < |t| && t[k].AnalyzeStream? ==> k < |a.calls| && t[k] == a.calls[k];
  }

  /**
   * The data flow of a run: the analyzer is submitted the stream just
   * downloaded from source file 0, the result is polled for the submitted job,
   * parsed from the polled response, and the parsed result is what is uploaded.
   */
  lemma AnalysisDataFlow(status: PipelineStatus, sources: seq<SourceFile>, cfg: Config, handlerName: string, env: Env)
    ensures var r := Run(status, sources, cfg, handlerName, env);
            forall c :: c in r.calls ==> AnalysisCallFlow(c, status.schemaId, sources, cfg, env)
  {
  }

  /**
   * With no source file the step fails on `get_source_files()[0]`: after the
   * existence check and any provisioning, before any download or analysis.
   */
  lemma MissingSourceFile(status: PipelineStatus, sources: seq<SourceFile>, cfg: Config, handlerName: string, env: Env)
    requires |sources| == 0
    ensures var r := Run(status, sources, cfg, handlerName, env);
            !r.addsFile && (forall c :: c in r.calls ==> !c.DownloadStream? && !c.AnalyzeStream?) &&
            (env.detail == Found || (env.detail == HttpError && ProvisionSucceeds(env)) ==>
               r.outcome == Err(Python(IndexError)))
  {
  }

  /**
   * An artifact is added exactly when the analyzed result was obtained; after
   * that only the upload, which is the last call and carries that result, can
   * make the step fail.
   */
  lemma ArtifactOnlyAfterAnalysis(status: PipelineStatus, sources: seq<SourceFile>, cfg: Config, handlerName: string, env: Env)
    ensures var r := Run(status, sources, cfg, handlerName, env);
            (r.addsFile <==> r.outcome.Ok? || (r.outcome.Err? && r.outcome.error.Raised? && r.outcome.error.call.UploadJsonText?)) &&
            (r.addsFile ==>
               |sources| > 0 && AnalysisSucceeds(env) &&
               r.calls[|r.calls| - 1] == UploadJsonText(OutputFileName, cfg.cpsProcesses, env.analyzed.value))
  {
  }

  /**
   * The step succeeds exactly when every collaborator on its path returns and
   * there is a source file; its result then carries the run's process id, the
   * handler's name and the name of the added artifact.
   */
  lemma SuccessCondition(status: PipelineStatus, sources: seq<SourceFile>, cfg: Config, handlerName: string, env: Env)
    ensures var r := Run(status, sources, cfg, handlerName, env);
            (r.outcome.Ok? <==>
               env.detail != OtherError && (env.detail == HttpError ==> ProvisionSucceeds(env)) &&
               |sources| > 0 && AnalysisSucceeds(env) && env.upload.Returns?) &&
            (r.outcome.Ok? ==>
               r.outcome.value == StepResult(status.processId, handlerName, SuccessResult(OutputFileName)))
  {
  }

  /** The `try`/`except HTTPError` block, as `EnsureAnalyzerPhase` specifies it. */
  method EnsureAnalyzer(analyzerId: string, cfg: Config, env: Env)
    returns (result: Result<(), StepError<Call>>, ghost calls: seq<Call>)
    ensures result == EnsureAnalyzerPhase(analyzerId, cfg, env).result
    ensures calls == EnsureAnalyzerPhase(analyzerId, cfg, env).calls
  {
    var check := GetAnalyzerDetail(analyzerId);
    calls := [check];
    if env.detail == OtherError {
      return Err(Raised(check)), calls;
    }
    result := Ok(());
    if env.detail == HttpError {
      var getSchema := GetSchema(analyzerId);
      calls := calls + [getSchema];
      if env.schema.Raises? {
        return Err(Raised(getSchema)), calls;
      }
      var selectedSchema := env.schema.value;
      var load := LoadSchemaFromBlob(SchemaContainer(cfg, analyzerId), selectedSchema.fileName, selectedSchema.className);
      calls := calls + [load];
      if env.schemaModel.Raises? {
        return Err(Raised(load)), calls;
      }
      var build := BuildSchema(env.schemaModel.value);
      calls := calls + [build];
      if env.template.Raises? {
        return Err(Raised(build)), calls;
      }
      var create := CreateAnalyzer(analyzerId, env.template.value);
      calls := calls + [create];
      if env.create.Raises? {
        return Err(Raised(create)), calls;
      }
    }
  }

  /** The analysis of the first source file, as `Analyze` specifies it: the analyzed result, or why there is none. */
  method AnalyzeSource(analyzerId: string, sources: seq<SourceFile>, cfg: Config, env: Env)
    returns (result: Result<Token, StepError<Call>>, ghost calls: seq<Call>)
    ensures result == Analyze(analyzerId, sources, cfg, env).result
    ensures calls == Analyze(analyzerId, sources, cfg, env).calls
  {
    calls := [];
    if |sources| == 0 {
      return Err(Python(IndexError)), calls;
    }
    var download := DownloadStream(sources[0], cfg.cpsProcesses);
    calls := calls + [download];
    if env.stream.Raises? {
      return Err(Raised(download)), calls;
    }
    var analyze := AnalyzeStream(analyzerId, env.stream.value);
    calls := calls + [analyze];
    if env.job.Raises? {
      return Err(Raised(analyze)), calls;
    }
    var poll := PollResult(env.job.value);
    calls := calls + [poll];
    if env.response.Raises? {
      return Err(Raised(poll)), calls;
    }
    var parse := ParseAnalyzedResult(env.response.value);
    calls := calls + [parse];
    if env.analyzed.Raises? {
      return Err(Raised(parse)), calls;
    }
    result := Ok(env.analyzed.value);
  }

  /**
   * `ExtractHandler.execute(context)`. Returns the step's outcome and the
   * (ghost) calls it made, both as `Run` specifies; adds the artifact exactly
   * when `Run` says so, with exactly one log entry, and changes nothing else.
   */
  method Execute(handlerName: string, cfg: Config, pipeline: DataPipeline, env: Env)
    returns (outcome: Result<StepResult, StepError<Call>>, ghost calls: seq<Call>)
    modifies pipeline
    ensures var run := Run(old(pipeline.status), old(pipeline.sourceFiles), cfg, handlerName, env);
            outcome == run.outcome && calls == run.calls &&
            if run.addsFile then
              |pipeline.files| == |old(pipeline.files)| + 1 &&
              pipeline.files[..|old(pipeline.files)|] == old(pipeline.files) &&
              var f := pipeline.files[|old(pipeline.files)|];
              fresh(f) && f.name == OutputFileName && f.artifactType == ExtractedContent &&
              f.logEntries == [LogEntry(handlerName, LogMessage)]
            else
              pipeline.files == old(pipeline.files)
    ensures pipeline.status == old(pipeline.status) && pipeline.sourceFiles == old(pipeline.sourceFiles)
    ensures forall f :: f in old(pipeline.files) ==> f.logEntries == old(f.logEntries)
  {
    var analyzerId := pipeline.status.schemaId;
    var ensured, ensureCalls := EnsureAnalyzer(analyzerId, cfg, env);
    calls := ensureCalls;
    if ensured.Err? {
      return Err(ensured.error), calls;
    }

    var analyzed, analyzeCalls := AnalyzeSource(analyzerId, pipeline.sourceFiles, cfg, env);
    calls := calls + analyzeCalls;
    if analyzed.Err? {
      return Err(analyzed.error), calls;
    }
    var result := analyzed.value;

    var resultFile := pipeline.AddFile(OutputFileName, ExtractedContent);
    resultFile.AppendLog(LogEntry(handlerName, LogMessage));

    var upload := UploadJsonText(resultFile.name, cfg.cpsProcesses, result);
    calls := calls + [upload];
    if env.upload.Raises? {
      return Err(Raised(upload)), calls;
    }
    outcome := Ok(StepResult(pipeline.status.processId, handlerName, SuccessResult(resultFile.name)));
  }
}
