/**
 * The mapping step (`MapHandler.execute`): read the Content Understanding
 * output of the `extract` step, build the chat prompt from its markdown and
 * from images of the first source file, ask the model for the generated fields,
 * merge them over the extracted fields, validate the result against the
 * schema, and record it as a new `SchemaMappedData` artifact with one log
 * entry.
 *
 * The deterministic parts (the defaulting lookups, the prompt, the data URLs,
 * the merge) are modelled exactly. The collaborators (blob store, PDF
 * rendering, schema catalog and loader, the chat model, schema validation,
 * upload) are abstract outcomes given by `Env`; `Run` specifies the calls and
 * the outcome, and `Execute` is proved to follow it.
 */
module MapHandler {
  import opened Wrappers
  import opened Json
  import opened Pipeline
  import Base64

  const OutputFileName: string := "gpt_output.json"
  const LogMessage: string := "GPT Extraction Result has been added"

  /** The step whose output this step reads. */
  const PreviousStep: string := "extract"

  const PdfType: string := "application/pdf"
  const JpegType: string := "image/jpeg"
  const PngType: string := "image/png"

  /** The fixed instruction that opens every prompt. */
  const Instruction: string :=
    "Extract the data from this Document.\n" +
    "            - If a value is not present, provide null.\n" +
    "            - Some values must be inferred based on the rules defined in the policy and Contents.\n" +
    "            - Dates should be in the format YYYY-MM-DD."

  /** One element of the user message: `{"type": "text", ...}` or `{"type": "image_url", ...}`. */
  datatype Part = TextPart(text: JValue) | ImageUrlPart(url: string)

  function InstructionPart(): Part {
    TextPart(JString(Instruction))
  }

  // ---------------------------------------------------------------------------
  // Data URLs (RFC 2397) around Base64

  /** The `data:` URL of `data` with media type `mime`, Base64-encoded. */
  function DataUrl(mime: string, data: seq<Base64.byte>): string {
    "data:" + mime + ";base64," + Base64.Encode(data)
  }

  /** `_convert_image_bytes_to_prompt(mime, data)` */
  function ImageToPrompt(mime: string, data: seq<Base64.byte>): Part {
    ImageUrlPart(DataUrl(mime, data))
  }

  /** The index of the first `c` in `s`, or `|s|` when there is none. */
  function IndexOf(s: string, c: char): (k: nat)
    ensures k <= |s| && (k < |s| ==> s[k] == c)
    ensures forall i :: 0 <= i < k ==> s[i] != c
  {
    if |s| == 0 then 0
    else if s[0] == c then 0
    else 1 + IndexOf(s[1..], c)
  }

  /**
   * Takes a `data:<mime>;base64,<text>` URL apart: its media type and the
   * decoded data. `None` for any other shape.
   */
  function ParseDataUrl(url: string): Option<(string, seq<Base64.byte>)> {
    if |url| < 5 || url[..5] != "data:" then None
    else
      var rest := url[5..];
      var k := IndexOf(rest, ';');
      var tail := rest[k..];
      if |tail| < 8 || tail[..8] != ";base64," then None
      else
        var data :- Base64.Decode(tail[8..]);
        Some((rest[..k], data))
  }

  /**
   * The image part `_convert_image_bytes_to_prompt` builds carries a data URL
   * that gives back its media type and its bytes, for a media type without
   * parameters.
   */
  lemma DataUrlRoundTrip(mime: string, data: seq<Base64.byte>)
    requires forall i :: 0 <= i < |mime| ==> mime[i] != ';'
    ensures ImageToPrompt(mime, data).ImageUrlPart?
    ensures ParseDataUrl(ImageToPrompt(mime, data).url) == Some((mime, data))
  {
    var enc := Base64.Encode(data);
    var url := DataUrl(mime, data);
    var rest := url[5..];
    assert url[..5] == "data:";
    assert rest == mime + ";base64," + enc;
    assert rest[|mime|] == ';';
    var k := IndexOf(rest, ';');
    assert k == |mime|;
    assert rest[..k] == mime;
    var tail := rest[k..];
    assert tail == ";base64," + enc;
    assert tail[..8] == ";base64,";
    assert tail[8..] == enc;
    Base64.DecodeEncode(data);
  }

  // ---------------------------------------------------------------------------
  // The prompt

  /** `_prepare_prompt(markdown)`: the instruction, then the markdown, as two text parts. */
  method PreparePrompt(markdown: JValue) returns (content: seq<Part>)
    ensures |content| == 2
    ensures content[0] == TextPart(JString(Instruction)) && content[1] == TextPart(markdown)
  {
    content := [];
    content := content + [InstructionPart()];
    content := content + [TextPart(markdown)];
  }

  /** One PNG image part per rendered page, in page order. */
  function PageParts(pages: seq<seq<Base64.byte>>): (r: seq<Part>)
    ensures |r| == |pages|
    ensures forall i :: 0 <= i < |pages| ==> r[i] == ImageToPrompt(PngType, pages[i])
  {
    if |pages| == 0 then [] else [ImageToPrompt(PngType, pages[0])] + PageParts(pages[1..])
  }

  /** The `for image in convert_from_bytes(...)` loop: one PNG part appended per rendered page. */
  method AppendPageImages(content: seq<Part>, pages: seq<seq<Base64.byte>>) returns (c: seq<Part>)
    ensures c == content + PageParts(pages)
  {
    c := content;
    var i := 0;
    while i < |pages|
      invariant 0 <= i <= |pages|
      invariant |c| == |content| + i && c[..|content|] == content
      invariant forall k :: 0 <= k < i ==> c[|content| + k] == ImageToPrompt(PngType, pages[k])
    {
      c := c + [ImageToPrompt(PngType, pages[i])];
      i := i + 1;
    }
    var expected := content + PageParts(pages);
    assert |c| == |expected|;
    forall k | 0 <= k < |c| ensures c[k] == expected[k] {
      if k < |content| {
        assert c[k] == c[..|content|][k];
      }
    }
  }

  // ---------------------------------------------------------------------------
  // Reading the previous step's output

  /** What the mapping step takes from the Content Understanding output. */
  datatype Extracted = Extracted(fields: JValue, markdown: JValue)

  /** `x[0]` in Python, for the JSON value `contents`. */
  function FirstElement(contents: JValue): Result<JValue, PyError> {
    match contents
    case JArray(xs) => if |xs| == 0 then Err(IndexError) else Ok(xs[0])
    case JString(s) => if |s| == 0 then Err(IndexError) else Ok(JString(s[..1]))
    case JObject(_) => Err(KeyError)
    case _ => Err(TypeError)
  }

  /**
   * The lookups into the previous output: `result` defaults to `{}`; within it `fields` defaults to `{}`,
   * `contents` to `[{}]`, and `markdown` in `contents[0]` to `""`.
   */
  function PreviousOutput(previous: JValue): (r: Result<Extracted, PyError>)
    ensures !previous.JObject? ==> r == Err(AttributeError)
    ensures previous.JObject? && "result" !in previous.fields ==>
              r == Ok(Extracted(JObject(map[]), JString("")))
    ensures previous.JObject? && "result" in previous.fields ==>
              var section := previous.fields["result"];
              (!section.JObject? ==> r == Err(AttributeError)) &&
              (section.JObject? && "contents" !in section.fields ==>
                 r == Ok(Extracted(Get(section.fields, "fields", JObject(map[])), JString("")))) &&
              (section.JObject? && "contents" in section.fields && section.fields["contents"] == JArray([]) ==>
                 r == Err(IndexError)) &&
              (section.JObject? && "contents" in section.fields && section.fields["contents"].JArray? &&
               |section.fields["contents"].elems| > 0 && section.fields["contents"].elems[0].JObject? ==>
                 r == Ok(Extracted(Get(section.fields, "fields", JObject(map[])),
                                   Get(section.fields["contents"].elems[0].fields, "markdown", JString("")))))
    ensures previous.JObject? && "result" in previous.fields && previous.fields["result"].JObject? &&
            "contents" in previous.fields["result"].fields ==>
              var contents := previous.fields["result"].fields["contents"];
              (contents.JArray? && |contents.elems| > 0 && !contents.elems[0].JObject? ==> r == Err(AttributeError)) &&
              (contents.JString? && |contents.s| == 0 ==> r == Err(IndexError)) &&
              (contents.JString? && |contents.s| > 0 ==> r == Err(AttributeError)) &&
              (contents.JObject? ==> r == Err(KeyError)) &&
              (contents.JNull? || contents.JBool? || contents.JInt? || contents.JFloat? ==> r == Err(TypeError))
    ensures r.Ok? ==> (previous.JObject? &&
                       var section := Get(previous.fields, "result", JObject(map[]));
                       section.JObject? && r.value.fields == Get(section.fields, "fields", JObject(map[])))
  {
    if !previous.JObject? then Err(AttributeError)
    else
      var section := Get(previous.fields, "result", JObject(map[]));
      if !section.JObject? then Err(AttributeError)
      else
        var fields := Get(section.fields, "fields", JObject(map[]));
        var first :- FirstElement(Get(section.fields, "contents", JArray([JObject(map[])])));
        if !first.JObject? then Err(AttributeError)
        else Ok(Extracted(fields, Get(first.fields, "markdown", JString(""))))
  }

  /**
   * `{**cuFields, **generated}`: defined when both are dictionaries; the keys
   * are those of either, a generated value wins on a shared key, and a key
   * only in the extracted fields keeps its value.
   */
  function Merge(cuFields: JValue, generated: JValue): (r: Result<map<string, JValue>, PyError>)
    ensures r.Ok? <==> cuFields.JObject? && generated.JObject?
    ensures r.Err? ==> r.error == TypeError
    ensures r.Ok? ==> r.value.Keys == cuFields.fields.Keys + generated.fields.Keys
    ensures r.Ok? ==> forall k :: k in generated.fields ==> r.value[k] == generated.fields[k]
    ensures r.Ok? ==> forall k :: k in cuFields.fields && k !in generated.fields ==> r.value[k] == cuFields.fields[k]
  {
    if cuFields.JObject? && generated.JObject? then Ok(cuFields.fields + generated.fields) else Err(TypeError)
  }

  // ---------------------------------------------------------------------------
  // The step

  /** The behaviour of every collaborator for one execution of the step. */
  datatype Env = Env(
    previous: Outcome<JValue>,                 // download_output_file_to_json_string + json.loads
    source: Outcome<seq<Base64.byte>>,         // download_stream of source file 0
    pages: Outcome<seq<seq<Base64.byte>>>,     // convert_from_bytes, each page saved as PNG
    schema: Outcome<SchemaRecord>,             // Schema.get_schema
    schemaModel: Outcome<Token>,               // load_schema_from_blob
    generatedModel: Outcome<Token>,            // get_generated_fields_model
    generated: Outcome<JValue>,                // the parsed chat completion, after model_dump
    validated: Outcome<JValue>,                // schema_model(**final_data).model_dump()
    upload: Outcome<Token>)                    // upload_json_text

  /** A call into a collaborator, with the arguments that identify what is asked for. */
  datatype Call =
    | DownloadOutputFile(processedBy: string, artifactType: ArtifactType)
    | DownloadStream(file: SourceFile, container: string)
    | ConvertPdfToImages(pdf: seq<Base64.byte>)
    | GetSchema(schemaId: string)
    | LoadSchemaFromBlob(container: string, blobName: string, moduleName: string)
    | GetGeneratedFieldsModel(schemaModel: Token)
    | ParseChatCompletion(userContent: seq<Part>, responseFormat: Token)
    | ValidateSchema(schemaModel: Token, data: map<string, JValue>)
    | UploadJsonText(fileName: string, container: string, parsed: JValue)




  /** The schema model and the generated-fields model derived from it. */
  datatype Models = Models(schemaModel: Token, generatedModel: Token)

  /** The download of the `extract` step's output, and what is taken from it. */
  function ReadPrevious(env: Env): (p: Phase<Call, Extracted>)
    ensures p.calls == [DownloadOutputFile(PreviousStep, ExtractedContent)]
  {
    var download := DownloadOutputFile(PreviousStep, ExtractedContent);
    match env.previous
    case Raises => Phase([download], Err(Raised(download)))
    case Returns(previous) =>
      match PreviousOutput(previous)
      case Err(kind) => Phase([download], Err(Python(kind)))
      case Ok(extracted) => Phase([download], Ok(extracted))
  }

  /**
   * `_prepare_prompt` and the media-type dispatch on source file 0: the prompt,
   * with the page images of a PDF or the image of a JPEG or PNG. The phase
   * fails only when there is no source file or a download or rendering raises.
   */
  function PromptPhase(markdown: JValue, sources: seq<SourceFile>, cfg: Config, env: Env): (p: Phase<Call, seq<Part>>)
    ensures forall c :: c in p.calls ==> c.DownloadStream? || c.ConvertPdfToImages?
    ensures |sources| == 0 ==> p == Phase([], Err(Python(IndexError)))
    ensures |sources| > 0 && sources[0].mimeType !in {PdfType, JpegType, PngType} ==>
              p == Phase([], Ok([InstructionPart(), TextPart(markdown)]))
    ensures p.result.Ok? ==> |sources| > 0
    ensures |sources| > 0 && sources[0].mimeType == PdfType && p.result.Ok? ==>
              env.pages.Returns? && p.result.value == [InstructionPart(), TextPart(markdown)] + PageParts(env.pages.value)
    ensures |sources| > 0 && sources[0].mimeType in {JpegType, PngType} && p.result.Ok? ==>
              env.source.Returns? &&
              p.result.value == [InstructionPart(), TextPart(markdown), ImageToPrompt(sources[0].mimeType, env.source.value)]
    ensures |sources| > 0 && sources[0].mimeType == PdfType ==>
              (p.result.Ok? <==> env.source.Returns? && env.pages.Returns?)
    ensures |sources| > 0 && sources[0].mimeType in {JpegType, PngType} ==> (p.result.Ok? <==> env.source.Returns?)
    ensures p.result.Err? && |sources| > 0 ==> |p.calls| > 0 && p.result.error == Raised(p.calls[|p.calls| - 1])
  {
    var header := [InstructionPart(), TextPart(markdown)];
    if |sources| == 0 then Phase([], Err(Python(IndexError)))
    else
      var file := sources[0];
      var download := DownloadStream(file, cfg.cpsProcesses);
      if file.mimeType == PdfType then
        match env.source
        case Raises => Phase([download], Err(Raised(download)))
        case Returns(pdf) =>
          var convert := ConvertPdfToImages(pdf);
          match env.pages
          case Raises => Phase([download, convert], Err(Raised(convert)))
          case Returns(pages) => Phase([download, convert], Ok(header + PageParts(pages)))
      else if file.mimeType == JpegType || file.mimeType == PngType then
        match env.source
        case Raises => Phase([download], Err(Raised(download)))
        case Returns(image) => Phase([download], Ok(header + [ImageToPrompt(file.mimeType, image)]))
      else
        Phase([], Ok(header))
  }

  /** `Schema.get_schema`, `load_schema_from_blob` and `get_generated_fields_model`: the run's schema and the model of the fields to generate. */
  function SchemaPhase(schemaId: string, cfg: Config, env: Env): (p: Phase<Call, Models>)
    ensures forall c :: c in p.calls ==> c.GetSchema? || c.LoadSchemaFromBlob? || c.GetGeneratedFieldsModel?
    ensures |p.calls| >= 1 && p.calls[0] == GetSchema(schemaId)
    ensures forall c :: c in p.calls && c.GetSchema? ==> c == GetSchema(schemaId)
    ensures forall c :: c in p.calls && c.LoadSchemaFromBlob? ==>
              env.schema.Returns? &&
              c == LoadSchemaFromBlob(SchemaContainer(cfg, schemaId), env.schema.value.fileName, env.schema.value.className)
    ensures env.schema.Returns? ==>
              |p.calls| >= 2 &&
              p.calls[1] == LoadSchemaFromBlob(SchemaContainer(cfg, schemaId),
                                               env.schema.value.fileName, env.schema.value.className)
    ensures p.result.Ok? <==> env.schema.Returns? && env.schemaModel.Returns? && env.generatedModel.Returns?
    ensures p.result.Ok? ==> p.result.value == Models(env.schemaModel.value, env.generatedModel.value)
  {
    var getSchema := GetSchema(schemaId);
    match env.schema
    case Raises => Phase([getSchema], Err(Raised(getSchema)))
    case Returns(record) =>
      var load := LoadSchemaFromBlob(SchemaContainer(cfg, schemaId), record.fileName, record.className);
      match env.schemaModel
      case Raises => Phase([getSchema, load], Err(Raised(load)))
      case Returns(model) =>
        var derive := GetGeneratedFieldsModel(model);
        match env.generatedModel
        case Raises => Phase([getSchema, load, derive], Err(Raised(derive)))
        case Returns(generatedModel) => Phase([getSchema, load, derive], Ok(Models(model, generatedModel)))
  }

  /**
   * The chat call, `{**cu_fields, **generated_values}` and `schema_model(**final_data)`:
   * ask the model, merge its fields over the extracted ones, validate the merge.
   * The phase yields the validated data when all three succeed.
   */
  function GeneratePhase(content: seq<Part>, cuFields: JValue, models: Models, env: Env): (p: Phase<Call, JValue>)
    ensures 1 <= |p.calls| <= 2 && p.calls[0] == ParseChatCompletion(content, models.generatedModel)
    ensures |p.calls| == 2 ==> p.calls[1].ValidateSchema?
    ensures forall c :: c in p.calls && c.ParseChatCompletion? ==> c == ParseChatCompletion(content, models.generatedModel)
    ensures forall c :: c in p.calls && c.ValidateSchema? ==>
              env.generated.Returns? && Merge(cuFields, env.generated.value).Ok? &&
              c == ValidateSchema(models.schemaModel, Merge(cuFields, env.generated.value).value)
    ensures env.generated.Returns? && Merge(cuFields, env.generated.value).Ok? ==>
              |p.calls| == 2 &&
              p.calls[1] == ValidateSchema(models.schemaModel, Merge(cuFields, env.generated.value).value)
    ensures env.generated.Returns? && Merge(cuFields, env.generated.value).Err? ==>
              p == Phase([p.calls[0]], Err(Python(TypeError)))
    ensures env.generated.Raises? ==> p == Phase([p.calls[0]], Err(Raised(p.calls[0])))
    ensures env.generated.Returns? && Merge(cuFields, env.generated.value).Ok? && env.validated.Raises? ==>
              p.result == Err(Raised(p.calls[1]))
    ensures p.result.Ok? <==> env.generated.Returns? && Merge(cuFields, env.generated.value).Ok? && env.validated.Returns?
    ensures p.result.Ok? ==> p.result.value == env.validated.value
  {
    var chat := ParseChatCompletion(content, models.generatedModel);
    match env.generated
    case Raises => Phase([chat], Err(Raised(chat)))
    case Returns(generated) =>
      match Merge(cuFields, generated)
      case Err(kind) => Phase([chat], Err(Python(kind)))
      case Ok(finalData) =>
        var validate := ValidateSchema(models.schemaModel, finalData);
        match env.validated
        case Raises => Phase([chat, validate], Err(Raised(validate)))
        case Returns(parsed) => Phase([chat, validate], Ok(parsed))
  }

  /**
   * The specification of `MapHandler.execute` for a run in state
   * (`status`, `sources`), by the handler named `handlerName`.
   */
  function Run(status: PipelineStatus, sources: seq<SourceFile>, cfg: Config, handlerName: string, env: Env): (r: StepRun<Call>)
    ensures |r.calls| >= 1
    ensures r.outcome.Ok? ==> r.addsFile
    ensures r.addsFile ==> r.calls[|r.calls| - 1].UploadJsonText?
  {
    var previous := ReadPrevious(env);
    if previous.result.Err? then StepRun(previous.calls, Err(previous.result.error), false)
    else
      var extracted := previous.result.value;
      var prompt := PromptPhase(extracted.markdown, sources, cfg, env);
      var calls1 := previous.calls + prompt.calls;
      if prompt.result.Err? then StepRun(calls1, Err(prompt.result.error), false)
      else
        var schema := SchemaPhase(status.schemaId, cfg, env);
        var calls2 := calls1 + schema.calls;
        if schema.result.Err? then StepRun(calls2, Err(schema.result.error), false)
        else
          var generate := GeneratePhase(prompt.result.value, extracted.fields, schema.result.value, env);
          var calls3 := calls2 + generate.calls;
          if generate.result.Err? then StepRun(calls3, Err(generate.result.error), false)
          else
            var upload := UploadJsonText(OutputFileName, cfg.cpsProcesses, generate.result.value);
            StepRun(calls3 + [upload],
                    if env.upload.Raises? then Err(Raised(upload))
                    else Ok(StepResult(status.processId, handlerName, SuccessResult(OutputFileName))),
                    true)
  }

  /** Every call of a run belongs to one of its phases, each reached only when the phases before it succeeded. */
  lemma RunLayout(status: PipelineStatus, sources: seq<SourceFile>, cfg: Config, handlerName: string, env: Env)
    ensures var r := Run(status, sources, cfg, handlerName, env);
            var previous := ReadPrevious(env);
            forall c :: c in r.calls ==>
              c in previous.calls ||
              (previous.result.Ok? &&
               var prompt := PromptPhase(previous.result.value.markdown, sources, cfg, env);
               c in prompt.calls ||
               (prompt.result.Ok? &&
                var schema := SchemaPhase(status.schemaId, cfg, env);
                c in schema.calls ||
                (schema.result.Ok? &&
                 var generate := GeneratePhase(prompt.result.value, previous.result.value.fields, schema.result.value, env);
                 c in generate.calls || (generate.result.Ok? && c.UploadJsonText?))))
  {
  }

  /** The first call reads the output of the `extract` step's `ExtractedContent` artifact. */
  lemma ReadsExtractOutput(status: PipelineStatus, sources: seq<SourceFile>, cfg: Config, handlerName: string, env: Env)
    ensures var r := Run(status, sources, cfg, handlerName, env);
            |r.calls| >= 1 && r.calls[0] == DownloadOutputFile("extract", ExtractedContent)
  {
  }

  /**
   * The prompt sent to the model: the two text parts, then one PNG image per
   * rendered page for a PDF, one image of the file's own type for a JPEG or
   * PNG, and nothing more for any other type.
   */
  lemma PromptFollowsMimeType(status: PipelineStatus, sources: seq<SourceFile>, cfg: Config, handlerName: string, env: Env)
    ensures var r := Run(status, sources, cfg, handlerName, env);
            forall c :: c in r.calls && c.ParseChatCompletion? ==>
              env.previous.Returns? && PreviousOutput(env.previous.value).Ok? && |sources| > 0 &&
              var header := [InstructionPart(), TextPart(PreviousOutput(env.previous.value).value.markdown)];
              var mime := sources[0].mimeType;
              (mime == PdfType ==> env.pages.Returns? && c.userContent == header + PageParts(env.pages.value)) &&
              (mime in {JpegType, PngType} ==>
                 env.source.Returns? && c.userContent == header + [ImageToPrompt(mime, env.source.value)]) &&
              (mime !in {PdfType, JpegType, PngType} ==> c.userContent == header)
  {
    GenerateCallsOfRun(status, sources, cfg, handlerName, env);
  }

  /** The data validated against the schema is the generated fields merged over the extracted ones. */
  lemma ValidatesMergedFields(status: PipelineStatus, sources: seq<SourceFile>, cfg: Config, handlerName: string, env: Env)
    ensures var r := Run(status, sources, cfg, handlerName, env);
            forall c :: c in r.calls && c.ValidateSchema? ==>
              env.previous.Returns? && PreviousOutput(env.previous.value).Ok? && env.generated.Returns? &&
              var merged := Merge(PreviousOutput(env.previous.value).value.fields, env.generated.value);
              merged.Ok? && c.data == merged.value
  {
    GenerateCallsOfRun(status, sources, cfg, handlerName, env);
  }

  /** The schema is fetched by the run's schema id and loaded from that schema's container. */
  lemma LoadsRunSchema(status: PipelineStatus, sources: seq<SourceFile>, cfg: Config, handlerName: string, env: Env)
    ensures var r := Run(status, sources, cfg, handlerName, env);
            (forall c :: c in r.calls && c.GetSchema? ==> c.schemaId == status.schemaId) &&
            (forall c :: c in r.calls && c.LoadSchemaFromBlob? ==>
               env.schema.Returns? &&
               c == LoadSchemaFromBlob(SchemaContainer(cfg, status.schemaId),
                                       env.schema.value.fileName, env.schema.value.className))
  {
    SchemaCallsOfRun(status, sources, cfg, handlerName, env);
  }

  /** The chat call and the validation of a run are those of its generation phase, reached after the prompt and the schema. */
  lemma GenerateCallsOfRun(status: PipelineStatus, sources: seq<SourceFile>, cfg: Config, handlerName: string, env: Env)
    ensures var r := Run(status, sources, cfg, handlerName, env);
            var previous := ReadPrevious(env);
            forall c :: c in r.calls && (c.ParseChatCompletion? || c.ValidateSchema?) ==>
              previous.result.Ok? &&
              var prompt := PromptPhase(previous.result.value.markdown, sources, cfg, env);
              var schema := SchemaPhase(status.schemaId, cfg, env);
              prompt.result.Ok? && schema.result.Ok? &&
              c in GeneratePhase(prompt.result.value, previous.result.value.fields, schema.result.value, env).calls
  {
    RunLayout(status, sources, cfg, handlerName, env);
  }

  /** The catalog lookup and the load of a run are those of its schema phase. */
  lemma SchemaCallsOfRun(status: PipelineStatus, sources: seq<SourceFile>, cfg: Config, handlerName: string, env: Env)
    ensures var r := Run(status, sources, cfg, handlerName, env);
            forall c :: c in r.calls && (c.GetSchema? || c.LoadSchemaFromBlob?) ==> c in SchemaPhase(status.schemaId, cfg, env).calls
  {
    RunLayout(status, sources, cfg, handlerName, env);
  }

  /**
   * An artifact is added exactly when the validated data was obtained; only
   * the upload, which is the last call and carries that data, can fail after it.
   */
  lemma ArtifactOnlyAfterValidation(status: PipelineStatus, sources: seq<SourceFile>, cfg: Config, handlerName: string, env: Env)
    ensures var r := Run(status, sources, cfg, handlerName, env);
            (r.addsFile <==> r.outcome.Ok? || (r.outcome.Err? && r.outcome.error.Raised? && r.outcome.error.call.UploadJsonText?)) &&
            (r.addsFile ==>
               env.validated.Returns? &&
               r.calls[|r.calls| - 1] == UploadJsonText(OutputFileName, cfg.cpsProcesses, env.validated.value))
  {
  }

  /**
   * The step succeeds exactly when the previous output is read and taken apart,
   * the prompt is built, the schema is loaded, the model answers, the merge is
   * defined, validation passes and the upload returns.
   */
  lemma MapSuccessCondition(status: PipelineStatus, sources: seq<SourceFile>, cfg: Config, handlerName: string, env: Env)
    ensures var r := Run(status, sources, cfg, handlerName, env);
            r.outcome.Ok? <==>
              env.previous.Returns? && PreviousOutput(env.previous.value).Ok? &&
              |sources| > 0 &&
              (sources[0].mimeType == PdfType ==> env.source.Returns? && env.pages.Returns?) &&
              (sources[0].mimeType in {JpegType, PngType} ==> env.source.Returns?) &&
              env.schema.Returns? && env.schemaModel.Returns? && env.generatedModel.Returns? &&
              env.generated.Returns? && Merge(PreviousOutput(env.previous.value).value.fields, env.generated.value).Ok? &&
              env.validated.Returns? && env.upload.Returns?
  {
  }

  /** A successful step returns the run's process id, the handler's name and the added artifact's name. */
  lemma MapStepResult(status: PipelineStatus, sources: seq<SourceFile>, cfg: Config, handlerName: string, env: Env)
    ensures var r := Run(status, sources, cfg, handlerName, env);
            r.outcome.Ok? ==>
              r.outcome.value == StepResult(status.processId, handlerName, SuccessResult(OutputFileName)) &&
              r.outcome.value.result == map["result" := "success", "file_name" := OutputFileName]
  {
  }

  /** `_prepare_prompt` and the media-type dispatch, as `PromptPhase` specifies them. */
  method BuildUserContent(markdown: JValue, sources: seq<SourceFile>, cfg: Config, env: Env)
    returns (result: Result<seq<Part>, StepError<Call>>, ghost calls: seq<Call>)
    ensures result == PromptPhase(markdown, sources, cfg, env).result
    ensures calls == PromptPhase(markdown, sources, cfg, env).calls
  {
    var userContent := PreparePrompt(markdown);
    assert userContent == [InstructionPart(), TextPart(markdown)];
    calls := [];
    if |sources| == 0 {
      return Err(Python(IndexError)), calls;
    }
    var file := sources[0];
    if file.mimeType == PdfType {
      var download := DownloadStream(file, cfg.cpsProcesses);
      calls := calls + [download];
      if env.source.Raises? {
        return Err(Raised(download)), calls;
      }
      var convert := ConvertPdfToImages(env.source.value);
      calls := calls + [convert];
      if env.pages.Raises? {
        return Err(Raised(convert)), calls;
      }
      userContent := AppendPageImages(userContent, env.pages.value);
    } else if file.mimeType == JpegType || file.mimeType == PngType {
      var download := DownloadStream(file, cfg.cpsProcesses);
      calls := calls + [download];
      if env.source.Raises? {
        return Err(Raised(download)), calls;
      }
      userContent := userContent + [ImageToPrompt(file.mimeType, env.source.value)];
    }
    result := Ok(userContent);
  }

  /** The schema lookup, its load from the schema's container and the derivation of the generated-fields model. */
  method LoadModels(schemaId: string, cfg: Config, env: Env)
    returns (result: Result<Models, StepError<Call>>, ghost calls: seq<Call>)
    ensures result == SchemaPhase(schemaId, cfg, env).result
    ensures calls == SchemaPhase(schemaId, cfg, env).calls
  {
    var getSchema := GetSchema(schemaId);
    calls := [getSchema];
    if env.schema.Raises? {
      return Err(Raised(getSchema)), calls;
    }
    var selectedSchema := env.schema.value;
    var load := LoadSchemaFromBlob(SchemaContainer(cfg, schemaId), selectedSchema.fileName, selectedSchema.className);
    calls := calls + [load];
    if env.schemaModel.Raises? {
      return Err(Raised(load)), calls;
    }
    var schemaModel := env.schemaModel.value;
    var derive := GetGeneratedFieldsModel(schemaModel);
    calls := calls + [derive];
    if env.generatedModel.Raises? {
      return Err(Raised(derive)), calls;
    }
    result := Ok(Models(schemaModel, env.generatedModel.value));
  }

  /**
   * `MapHandler.execute(context)`. Returns the step's outcome and the (ghost)
   * calls it made, both as `Run` specifies; adds the artifact exactly when
   * `Run` says so, with exactly one log entry, and changes nothing else.
   */
  method Execute(handlerName: string, cfg: Config, pipeline: DataPipeline, env: Env)
    returns (outcome: Result<StepResult, StepError<Call>>, ghost calls: seq<Call>)
    modifies pipeline
    ensures var run := Run(old(pipeline.status), old(pipeline.sourceFiles), cfg, handlerName, env);
            outcome == run.outcome && calls == run.calls &&
            if run.addsFile then
              |pipeline.files| == |old(pipeline.files)| + 1 &&
              pipeline.files[..|old(pipeline.files)|] == old(pipeline.files) &&
              var f := pipeline.files[|old(pipeline.files)|];
              fresh(f) && f.name == OutputFileName && f.artifactType == SchemaMappedData &&
              f.logEntries == [LogEntry(handlerName, LogMessage)]
            else
              pipeline.files == old(pipeline.files)
    ensures pipeline.status == old(pipeline.status) && pipeline.sourceFiles == old(pipeline.sourceFiles)
    ensures forall f :: f in old(pipeline.files) ==> f.logEntries == old(f.logEntries)
  {
    var download := DownloadOutputFile(PreviousStep, ExtractedContent);
    calls := [download];
    if env.previous.Raises? {
      return Err(Raised(download)), calls;
    }
    var previous := PreviousOutput(env.previous.value);
    if previous.Err? {
      return Err(Python(previous.error)), calls;
    }
    var cuFields := previous.value.fields;
    var markdown := previous.value.markdown;

    var userContent, promptCalls := BuildUserContent(markdown, pipeline.sourceFiles, cfg, env);
    calls := calls + promptCalls;
    if userContent.Err? {
      return Err(userContent.error), calls;
    }

    var models, schemaCalls := LoadModels(pipeline.status.schemaId, cfg, env);
    calls := calls + schemaCalls;
    if models.Err? {
      return Err(models.error), calls;
    }

    var chat := ParseChatCompletion(userContent.value, models.value.generatedModel);
    calls := calls + [chat];
    if env.generated.Raises? {
      return Err(Raised(chat)), calls;
    }
    var finalData := Merge(cuFields, env.generated.value);
    if finalData.Err? {
      return Err(Python(finalData.error)), calls;
    }
    var validate := ValidateSchema(models.value.schemaModel, finalData.value);
    calls := calls + [validate];
    if env.validated.Raises? {
      return Err(Raised(validate)), calls;
    }
    var parsed := env.validated.value;

    var resultFile := pipeline.AddFile(OutputFileName, SchemaMappedData);
    resultFile.AppendLog(LogEntry(handlerName, LogMessage));

    var upload := UploadJsonText(resultFile.name, cfg.cpsProcesses, parsed);
    calls := calls + [upload];
    if env.upload.Raises? {
      return Err(Raised(upload)), calls;
    }
    outcome := Ok(StepResult(pipeline.status.processId, handlerName, SuccessResult(resultFile.name)));
  }
}
