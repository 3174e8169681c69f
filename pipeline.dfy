/**
 * The pipeline entities the step handlers share: the run's status, its source
 * files, the artifacts a step adds (with their audit log), the step result,
 * and the outcome of a call into a collaborator whose code is not modelled.
 */
module Pipeline {
  import opened Wrappers
  import opened Json

  /** The artifact tags the modelled steps use. */
  datatype ArtifactType = SourceContent | ExtractedContent | SchemaMappedData

  /** One audit-log record on an artifact; the timestamp is not modelled. */
  datatype LogEntry = LogEntry(source: string, message: string)

  /** `pipeline_status`: the run's process id and the schema id selected for it. */
  datatype PipelineStatus = PipelineStatus(processId: string, schemaId: string)

  /** A reference to an intake document: its name and MIME type. */
  datatype SourceFile = SourceFile(name: string, mimeType: string)

  /** The value every step returns to the pipeline driver. */
  datatype StepResult = StepResult(processId: string, stepName: string, result: map<string, string>)

  /** What a call into a collaborator does: it returns a value or raises. */
  datatype Outcome<+T> = Returns(value: T) | Raises

  /** Why a step raised: the collaborator call `C` that raised, or a built-in Python exception. */
  datatype StepError<+C> = Raised(call: C) | Python(kind: PyError)

  /** The calls of one phase of a step and how the phase ended. */
  datatype Phase<+C, +T> = Phase(calls: seq<C>, result: Result<T, StepError<C>>)

  /** The specification of one execution of a step: the calls made, the outcome, whether an artifact is added. */
  datatype StepRun<+C> = StepRun(calls: seq<C>, outcome: Result<StepResult, StepError<C>>, addsFile: bool)

  /** An opaque value handed from one collaborator to the next (a stream, a poller, a model). */
  datatype Token = Token(id: nat)

  /** The catalog record of a schema (`Schema.get_schema`): where its implementation is stored. */
  datatype SchemaRecord = SchemaRecord(fileName: string, className: string)

  /** The configuration values that name storage locations. */
  datatype Config = Config(cpsConfiguration: string, cpsProcesses: string)

  const SchemasFolder: string := "/Schemas/"

  /** `f"{app_cps_configuration}/Schemas/{schema_id}"`: the container that holds the implementation of schema `schemaId`. */
  function SchemaContainer(cfg: Config, schemaId: string): string {
    cfg.cpsConfiguration + SchemasFolder + schemaId
  }

  /**
   * A schema's container lies inside the configuration container, in its
   * `Schemas` folder, and ends in the schema id; so different schemas of one
   * configuration live in different containers.
   */
  lemma SchemaContainerInjective(cfg: Config, a: string, b: string)
    ensures var c := SchemaContainer(cfg, a);
            var n := |cfg.cpsConfiguration|;
            |c| == n + |SchemasFolder| + |a| && c[..n] == cfg.cpsConfiguration &&
            c[n..n + |SchemasFolder|] == SchemasFolder && c[n + |SchemasFolder|..] == a
    ensures SchemaContainer(cfg, a) == SchemaContainer(cfg, b) ==> a == b
  {
    var ca, cb := SchemaContainer(cfg, a), SchemaContainer(cfg, b);
    var n := |cfg.cpsConfiguration| + |SchemasFolder|;
    assert ca[n..] == a && cb[n..] == b;
  }

  /** The `result` mapping of a successful step that produced `fileName`. */
  function SuccessResult(fileName: string): (m: map<string, string>)
    ensures m.Keys == {"result", "file_name"}
    ensures m["result"] == "success" && m["file_name"] == fileName
  {
    map["result" := "success", "file_name" := fileName]
  }

  /** An artifact of the run; only its log is changed after it is created. */
  class PipelineFile {
    const name: string
    const artifactType: ArtifactType
    var logEntries: seq<LogEntry>

    constructor (name: string, artifactType: ArtifactType)
      ensures this.name == name && this.artifactType == artifactType
      ensures logEntries == []
    {
      this.name := name;
      this.artifactType := artifactType;
      logEntries := [];
    }

    /** `log_entries.append(entry)` */
    method AppendLog(entry: LogEntry)
      modifies this
      ensures logEntries == old(logEntries) + [entry]
    {
      logEntries := logEntries + [entry];
    }
  }

  /** `context.data_pipeline`: the state of one run that the steps read and extend. */
  class DataPipeline {
    var status: PipelineStatus
    var sourceFiles: seq<SourceFile>
    var files: seq<PipelineFile>

    constructor (status: PipelineStatus, sourceFiles: seq<SourceFile>)
      ensures this.status == status && this.sourceFiles == sourceFiles && files == []
    {
      this.status := status;
      this.sourceFiles := sourceFiles;
      files := [];
    }

    /** `add_file`: a new artifact with an empty log, appended to the run's files. */
    method AddFile(name: string, artifactType: ArtifactType) returns (f: PipelineFile)
      modifies this
      ensures fresh(f) && f.name == name && f.artifactType == artifactType && f.logEntries == []
      ensures files == old(files) + [f]
      ensures status == old(status) && sourceFiles == old(sourceFiles)
    {
      f := new PipelineFile(name, artifactType);
      files := files + [f];
    }
  }
}
