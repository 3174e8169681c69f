# Content Processor steps, modelled in Dafny

This project models three pieces of the Content Processor pipeline.

- **The extraction step** (`ExtractHandler.execute`). It derives the Content Understanding analyzer id from the run's
  schema id and runs the analyzer existence check. When that check raises an HTTP error, it provisions the analyzer:
  catalog lookup, schema load from the configuration container, template build, then create-analyzer. It then analyzes
  the first source file and polls the result. It adds one `ExtractedContent` artifact carrying one log entry, uploads
  the result, and returns the step result.
- **The mapping step** (`MapHandler.execute`, `_prepare_prompt`, `_convert_image_bytes_to_prompt`). It reads the
  extraction output, with its defaulting lookups. It builds the prompt: two text parts, then one image part per PDF page,
  or one image part for a JPEG or PNG. Each image is a `data:` URL (RFC 2397) around Base64 (section 4 of RFC 4648). It
  asks the model for the generated fields and merges them over the extracted fields, the generated value winning. It
  validates the merged data and records it as one `SchemaMappedData` artifact with one log entry.
- **The EXPD commercial-invoice schema** (`InvoiceAddress`, `InvoiceItem`, `EXPDCommercialInvoice`). It covers
  `from_json` with its per-key defaults, `to_dict` and `example()`.

Layout:

- `wrappers.dfy` (`Wrappers`): `Option` and `Result`.
- `json.dfy` (`Json`): decoded JSON values, `dict.get` with a default, and the Python exception kinds the code can raise.
- `base64.dfy` (`Base64`): the RFC 4648 encoder `base64.b64encode` computes, and a decoder as its partner.
- `pipeline.dfy` (`Pipeline`): the run state (`DataPipeline`, a class whose `files` sequence `add_file` extends), the
  artifacts (`PipelineFile`, a class whose `logEntries` are appended to) and the step result.
- `extract_handler.dfy` (`ExtractHandler`) and `map_handler.dfy` (`MapHandler`): for each step,
  - a specification function `Run` gives the calls into collaborators in order, the outcome, and whether an artifact is
    added;
  - an imperative `Execute` works on a `DataPipeline` and is proved to do what `Run` says;
  - lemmas state the step's properties about `Run`.
- `commercial_invoice.dfy` (`CommercialInvoice`): the invoice records as pure functions, with round-trip lemmas.

How the external world is modelled:

- **Collaborators.** Every call into code that is not modelled is an abstract outcome: it returns a value or it raises.
  This covers the analyzer service, the schema catalog and loader, blob storage, PDF rendering, the chat model and schema
  validation. The outcomes of one execution are the fields of an `Env` value, and a ghost trace records the calls made.
- **Exceptions.** A Python exception is an `Err`. It is either the call that raised or a built-in exception kind.
- **Invoice numbers.** Float fields are `real`s. The two-decimal formatting of `to_dict` is a parameter
  `fmt: real -> string`, and the reading of a numeric string in validation is a parameter `parse: string -> Option<real>`.

Notes on what the code does:

- **HTTP errors.** The existence check's `except requests.exceptions.HTTPError` catches every HTTP error, not only
  not-found, and provisioning follows any of them. Only an error that is not an HTTP error propagates at once.
- **Missing source file.** It raises `IndexError` at `get_source_files()[0]`, not a dedicated error before any network
  call. In the extraction step this comes after the existence check and any provisioning. In the mapping step it comes
  after the previous output has been read.
- **Error kinds.** A collaborator's failure propagates as the exception that collaborator raised. No handler catches or
  translates it; only the existence check's HTTP error is caught.
- **Upload failure.** The artifact and its log entry are added before the upload. A failing upload therefore leaves the
  artifact in the run's file list while the step fails.

## Model

| member | source | states |
|---|---|---|
| Base64.CharOf | src/ContentProcessor/src/libs/pipeline/handlers/map_handler.py:168 | every sextet maps to a character of the RFC 4648 alphabet |
| Base64.ValueOf | src/ContentProcessor/src/libs/pipeline/handlers/map_handler.py:168 | a character has a value exactly when it is in the alphabet, and that value maps back to the character |
| Base64.Encode | src/ContentProcessor/src/libs/pipeline/handlers/map_handler.py:168 | the encoding has four characters per started group of three bytes; it uses only the alphabet and `=`, with `=` only in the last two positions |
| Base64.DecodeEncode | src/ContentProcessor/src/libs/pipeline/handlers/map_handler.py:168 | decoding the encoding of any byte sequence gives that sequence back |
| Base64.TestVectors | src/ContentProcessor/src/libs/pipeline/handlers/map_handler.py:168 | the encodings of `""`, `"f"` … `"foobar"` are the test vectors of section 10 of RFC 4648, and 0xFB 0xFF encodes to `+/8=` |
| Pipeline.SuccessResult | src/ContentProcessor/src/libs/pipeline/handlers/extract_handler.py:95-98 | the result mapping has exactly the keys `result` and `file_name`, with `success` and the file name |
| Pipeline.SchemaContainerInjective | src/ContentProcessor/src/libs/pipeline/handlers/extract_handler.py:48 | the container `{configuration}/Schemas/{schema id}` is the configuration container, then `/Schemas/`, then the schema id, so different schema ids give different containers |
| Pipeline.PipelineFile.AppendLog | src/ContentProcessor/src/libs/pipeline/handlers/extract_handler.py:76-83 | the log becomes the old log plus the new entry at its end |
| Pipeline.DataPipeline.AddFile | src/ContentProcessor/src/libs/pipeline/handlers/extract_handler.py:70-73 | a fresh artifact with the given name and type and an empty log is appended to `files`; status and sources are unchanged |
| ExtractHandler.Provision | src/ContentProcessor/src/libs/pipeline/handlers/extract_handler.py:40-55 | calls go in the order schema lookup by the analyzer id, load from `{configuration}/Schemas/{id}` with the record's file and class names, template build, create-analyzer; each call is made only when the one before it returned, and the first raising call ends the phase with that call as its error; create-analyzer is only the fourth call; success exactly when all four return |
| ExtractHandler.Analyze | src/ContentProcessor/src/libs/pipeline/handlers/extract_handler.py:57-66 | no provisioning call; with no source file, no call and `IndexError`; otherwise it first downloads source file 0 from the process container; `begin_analyze_stream` is only the second call and submits the downloaded stream; `poll_result` gets the submitted job and the parse gets the polled response; the result is the parsed `AnalyzedResult`; success exactly when there is a source and every call returns; a failure is the last call's exception |
| ExtractHandler.EnsureAnalyzerPhase | src/ContentProcessor/src/libs/pipeline/handlers/extract_handler.py:36-55 | the existence check is the first call; only an HTTP error leads to provisioning, whose calls follow it in order; the phase succeeds exactly when the analyzer is found or the HTTP error is followed by a provisioning that succeeds; a failure is the last call's exception |
| ExtractHandler.Run | src/ContentProcessor/src/libs/pipeline/handlers/extract_handler.py:24-99 | the existence check is the first call; a successful step adds the artifact; a step that adds it ends with the upload |
| ExtractHandler.AnalyzerIdIsSchemaId | src/ContentProcessor/src/libs/pipeline/handlers/extract_handler.py:31-63 | the existence check is the first call, and every call that names an analyzer or schema names the run's schema id |
| ExtractHandler.NoProvisioningUnlessHttpError | src/ContentProcessor/src/libs/pipeline/handlers/extract_handler.py:36-39 | when the existence check does not raise an HTTP error, no schema lookup, load, build or create is made |
| ExtractHandler.OtherErrorPropagates | src/ContentProcessor/src/libs/pipeline/handlers/extract_handler.py:36-39 | an existence-check error that is not an HTTP error is the step's error; nothing else is called and no artifact is added |
| ExtractHandler.HttpErrorProvisionsInOrder | src/ContentProcessor/src/libs/pipeline/handlers/extract_handler.py:39-55 | after an HTTP error, calls two to five are the schema lookup, the load from the schema's container with the record's names, the build from the loaded model, and create-analyzer with that template; a raising schema lookup, load, build or create is the step's error, and nothing after it is called |
| ExtractHandler.CreateAnalyzerAtMostOnce | src/ContentProcessor/src/libs/pipeline/handlers/extract_handler.py:53-55 | create-analyzer is called at most once, and only as the fifth call |
| ExtractHandler.ProvisioningFailureStops | src/ContentProcessor/src/libs/pipeline/handlers/extract_handler.py:39-73 | a raising provisioning call is the step's error; nothing is analyzed and no artifact is added |
| ExtractHandler.AnalysisFollowsProvisioning | src/ContentProcessor/src/libs/pipeline/handlers/extract_handler.py:57-63 | every provisioning call comes before the analysis submission, and the submission directly follows the download of source file 0 |
| ExtractHandler.AnalysisDataFlow | src/ContentProcessor/src/libs/pipeline/handlers/extract_handler.py:57-66 | in every run, the download is of source file 0, the submission carries the downloaded stream, the poll the submitted job, the parse the polled response, and the upload the parsed result |
| ExtractHandler.MissingSourceFile | src/ContentProcessor/src/libs/pipeline/handlers/extract_handler.py:57-63 | with no source file, nothing is downloaded or analyzed and no artifact is added; once the analyzer is ready the error is `IndexError` |
| ExtractHandler.ArtifactOnlyAfterAnalysis | src/ContentProcessor/src/libs/pipeline/handlers/extract_handler.py:65-90 | an artifact is added exactly when the step succeeds or only the upload failed; it needs the analyzed result, and the last call is then the upload of `content_understanding_output.json` to the process container carrying that result |
| ExtractHandler.SuccessCondition | src/ContentProcessor/src/libs/pipeline/handlers/extract_handler.py:92-99 | success exactly when every call on the taken path returns and there is a source file; the result carries the run's process id, the handler name and `{"result": "success", "file_name": ...}` |
| ExtractHandler.EnsureAnalyzer | src/ContentProcessor/src/libs/pipeline/handlers/extract_handler.py:36-55 | the imperative existence check and provisioning make the calls and reach the result the specification gives |
| ExtractHandler.AnalyzeSource | src/ContentProcessor/src/libs/pipeline/handlers/extract_handler.py:57-66 | the imperative analysis makes the calls and reaches the result `Analyze` gives |
| ExtractHandler.Execute | src/ContentProcessor/src/libs/pipeline/handlers/extract_handler.py:24-99 | outcome and calls are those of `Run`; when `Run` adds an artifact, exactly one fresh `ExtractedContent` file named `content_understanding_output.json` is appended, with one log entry from the handler; otherwise the files are unchanged; status, sources and old logs are unchanged |
| MapHandler.DataUrlRoundTrip | src/ContentProcessor/src/libs/pipeline/handlers/map_handler.py:160-173 | for a media type without `;` (`image/png`, `image/jpeg`), `ImageToPrompt` gives an image part whose `data:{mime};base64,{Base64(bytes)}` URL parses back to the media type and the exact bytes |
| MapHandler.PreparePrompt | src/ContentProcessor/src/libs/pipeline/handlers/map_handler.py:175-192 | exactly two text parts: the fixed instruction, then the markdown |
| MapHandler.PageParts | src/ContentProcessor/src/libs/pipeline/handlers/map_handler.py:57-62 | one PNG data-URL image part per page, in page order |
| MapHandler.AppendPageImages | src/ContentProcessor/src/libs/pipeline/handlers/map_handler.py:57-62 | the loop leaves the prompt as it was, followed by the page images in order |
| MapHandler.PreviousOutput | src/ContentProcessor/src/libs/pipeline/handlers/map_handler.py:35-42 | a missing `result` gives empty fields and `""` markdown; a missing `contents` gives `""`; a missing `markdown` gives `""`; a missing `fields` gives `{}`; an empty `contents` list or string is `IndexError`; a dictionary `contents` is `KeyError`, and a null, boolean or number one `TypeError`; a non-empty string `contents`, a first element that is not a dictionary, or a value that is not a dictionary is `AttributeError` |
| MapHandler.Merge | src/ContentProcessor/src/libs/pipeline/handlers/map_handler.py:126 | defined exactly when both sides are dictionaries (otherwise `TypeError`); the keys are the union; a generated value wins on a shared key; an extracted-only key keeps its value |
| MapHandler.ReadPrevious | src/ContentProcessor/src/libs/pipeline/handlers/map_handler.py:30-35 | the only call downloads the output of step `extract` of type `ExtractedContent` |
| MapHandler.PromptPhase | src/ContentProcessor/src/libs/pipeline/handlers/map_handler.py:45-77 | with no source, `IndexError`; for another media type, no call and the two text parts; a PDF succeeds exactly when its download and rendering return, with the text parts then the page images; a JPEG or PNG succeeds exactly when its download returns, with the text parts then one image of the file's own type; a failure is the raising call |
| MapHandler.SchemaPhase | src/ContentProcessor/src/libs/pipeline/handlers/map_handler.py:81-93 | the schema lookup by the run's schema id comes first, then the load from that schema's container with the record's names; success exactly when all three calls return |
| MapHandler.GeneratePhase | src/ContentProcessor/src/libs/pipeline/handlers/map_handler.py:96-128 | the chat call gets the prompt and the generated-fields model; validation gets the merged fields; a merge of a non-dictionary is `TypeError` with no validation; the phase succeeds exactly when the chat call returns, the merge is defined and validation returns, and then yields the validated data |
| MapHandler.Run | src/ContentProcessor/src/libs/pipeline/handlers/map_handler.py:26-158 | the step makes at least one call; a successful step adds the artifact; a step that adds it ends with the upload |
| MapHandler.RunLayout | src/ContentProcessor/src/libs/pipeline/handlers/map_handler.py:26-158 | every call of a run belongs to the previous-output read, the prompt, the schema or the generation phase, or is the upload, and each phase is reached only when the phases before it succeeded |
| MapHandler.ReadsExtractOutput | src/ContentProcessor/src/libs/pipeline/handlers/map_handler.py:30-33 | the step first reads the `extract` step's `ExtractedContent` artifact |
| MapHandler.PromptFollowsMimeType | src/ContentProcessor/src/libs/pipeline/handlers/map_handler.py:45-77 | the prompt sent to the model is the two text parts, then the page images for a PDF, one image of the file's type for a JPEG or PNG, and nothing more otherwise |
| MapHandler.ValidatesMergedFields | src/ContentProcessor/src/libs/pipeline/handlers/map_handler.py:122-127 | the data validated against the schema is the generated fields merged over the extracted ones |
| MapHandler.LoadsRunSchema | src/ContentProcessor/src/libs/pipeline/handlers/map_handler.py:81-92 | the schema is looked up by the run's schema id and loaded from its container with the record's names |
| MapHandler.ArtifactOnlyAfterValidation | src/ContentProcessor/src/libs/pipeline/handlers/map_handler.py:127-149 | an artifact is added exactly when the step succeeds or only the upload failed; the last call then uploads `gpt_output.json` with the validated data |
| MapHandler.MapSuccessCondition | src/ContentProcessor/src/libs/pipeline/handlers/map_handler.py:26-158 | the step succeeds exactly when the previous output is read and taken apart, there is a source file whose download (and for a PDF rendering) returns, the schema is loaded, the model answers, the merge is defined, validation returns and the upload returns |
| MapHandler.MapStepResult | src/ContentProcessor/src/libs/pipeline/handlers/map_handler.py:151-158 | a successful step returns the run's process id, the handler name and `{"result": "success", "file_name": "gpt_output.json"}` |
| MapHandler.BuildUserContent | src/ContentProcessor/src/libs/pipeline/handlers/map_handler.py:45-77 | the imperative prompt assembly makes the calls and builds the prompt `PromptPhase` gives |
| MapHandler.LoadModels | src/ContentProcessor/src/libs/pipeline/handlers/map_handler.py:81-93 | the imperative schema lookup, load and generated-model derivation make the calls and reach the result `SchemaPhase` gives |
| MapHandler.Execute | src/ContentProcessor/src/libs/pipeline/handlers/map_handler.py:26-158 | outcome and calls are those of `Run`; when `Run` adds an artifact, exactly one fresh `SchemaMappedData` file named `gpt_output.json` is appended, with one log entry from the handler; otherwise the files are unchanged; status, sources and old logs are unchanged |
| CommercialInvoice.AddressExample | src/ContentProcessorAPI/samples/schemas/expd_commercial_invoice.py:31-45 | all six address fields are `""` |
| CommercialInvoice.ItemExample | src/ContentProcessorAPI/samples/schemas/expd_commercial_invoice.py:137-158 | strings `""`, quantity 0, the four amounts 0.0, not dangerous goods |
| CommercialInvoice.InvoiceExample | src/ContentProcessorAPI/samples/schemas/expd_commercial_invoice.py:265-291 | example addresses, exactly one example item, the given date, zero boxes |
| CommercialInvoice.CreateAddress | src/ContentProcessorAPI/samples/schemas/expd_commercial_invoice.py:306-316 | `None` gives `None`; a non-dictionary is `AttributeError`; a dictionary is accepted exactly when each of the six keys is absent, null or a string, and then an absent or null key gives `None` |
| CommercialInvoice.CreateItem | src/ContentProcessorAPI/samples/schemas/expd_commercial_invoice.py:318-335 | `None` gives `None`; a non-dictionary is `AttributeError`; a dictionary is accepted exactly when every string, integer, float and boolean key is absent, null or of a kind its field accepts, and is otherwise a validation error; then an absent `is_dangerous_goods` gives `False`, every other absent or null key gives `None`, and each field holds its key's string, integer, reparsed float or boolean |
| CommercialInvoice.CreateItems | src/ContentProcessorAPI/samples/schemas/expd_commercial_invoice.py:337-339 | succeeds exactly when every entry does; the result keeps the length and order; on failure, the error is the first failing entry's error |
| CommercialInvoice.AllItems | src/ContentProcessorAPI/samples/schemas/expd_commercial_invoice.py:242-244 | the item list is accepted exactly when no entry is `None`, keeping length and order |
| CommercialInvoice.FromJson | src/ContentProcessorAPI/samples/schemas/expd_commercial_invoice.py:294-360 | a non-dictionary is `AttributeError`; an absent `items` gives `[]`; a present list keeps its length and order, entry by entry, and a failing entry's error is the document's; an empty dictionary or string `items` gives `[]`, a non-empty one is `AttributeError`, and a null, boolean or number `items` is `TypeError`; both addresses are read by `create_invoice_address`; `invoice_number` and `invoice_date` hold their keys' strings |
| CommercialInvoice.FromJsonAccepts | src/ContentProcessorAPI/samples/schemas/expd_commercial_invoice.py:337-360 | a dictionary is accepted exactly when its items, its two addresses and every present scalar key are; a dictionary without `items` is accepted exactly when its addresses and scalars are |
| CommercialInvoice.ScalarsAccepted | src/ContentProcessorAPI/samples/schemas/expd_commercial_invoice.py:341-360 | the invoice's scalar fields accept a dictionary exactly when each string, integer and float key is absent, null or of a kind its field accepts |
| CommercialInvoice.FromJsonFields | src/ContentProcessorAPI/samples/schemas/expd_commercial_invoice.py:341-360 | in an accepted document, each of the ten string fields, `number_of_boxes` and the four floats is its key's value, or `None` when the key is absent or null |
| CommercialInvoice.EmptyDocument | src/ContentProcessorAPI/samples/schemas/expd_commercial_invoice.py:337-360 | `from_json` of `{}` is accepted, with every field `None` and the items `[]` |
| CommercialInvoice.EmptyItem | src/ContentProcessorAPI/samples/schemas/expd_commercial_invoice.py:318-335 | `create_invoice_item({})` is accepted, with every field `None` except `is_dangerous_goods`, which is `False` |
| CommercialInvoice.StringJson | src/ContentProcessorAPI/samples/schemas/expd_commercial_invoice.py:376-390 | a string field as JSON is accepted by a `str` field and reads back as the field |
| CommercialInvoice.IntJson | src/ContentProcessorAPI/samples/schemas/expd_commercial_invoice.py:387 | an integer field as JSON is accepted by an `int` field and reads back as the field |
| CommercialInvoice.BoolJson | src/ContentProcessorAPI/samples/schemas/expd_commercial_invoice.py:178 | a boolean field as JSON is accepted by a `bool` field and reads back as the field |
| CommercialInvoice.AddressToDict | src/ContentProcessorAPI/samples/schemas/expd_commercial_invoice.py:47-61 | exactly the six keys, each holding the same-named field |
| CommercialInvoice.ItemToDict | src/ContentProcessorAPI/samples/schemas/expd_commercial_invoice.py:160-181 | each of the thirteen keys holds the same-named field, with floats as two-decimal text |
| CommercialInvoice.ItemsToJson | src/ContentProcessorAPI/samples/schemas/expd_commercial_invoice.py:369-372 | one dictionary per item, in order |
| CommercialInvoice.ToDictShape | src/ContentProcessorAPI/samples/schemas/expd_commercial_invoice.py:362-393 | a `None` address maps to null and a present one to its dictionary; `None` items map to `[]`; every other key holds the same-named field |
| CommercialInvoice.ToDict | src/ContentProcessorAPI/samples/schemas/expd_commercial_invoice.py:362-393 | the result is a dictionary; what each of its keys holds is stated by `ToDictShape` |
| CommercialInvoice.AddressRoundTrip | src/ContentProcessorAPI/samples/schemas/expd_commercial_invoice.py:306-316 | `create_invoice_address(a.to_dict()) == a` for every address |
| CommercialInvoice.FloatRoundTrip | src/ContentProcessorAPI/samples/schemas/expd_commercial_invoice.py:173-176 | a formatted float field is accepted by a `float` field and reads back as the reparsed value |
| CommercialInvoice.ItemRoundTrip | src/ContentProcessorAPI/samples/schemas/expd_commercial_invoice.py:318-335 | `create_invoice_item(item.to_dict())` is the item, with only its floats reparsed |
| CommercialInvoice.ItemsRoundTrip | src/ContentProcessorAPI/samples/schemas/expd_commercial_invoice.py:337-339 | a list of item dictionaries reads back entry by entry, in order, with no `None` entry |
| CommercialInvoice.InvoiceRoundTrip | src/ContentProcessorAPI/samples/schemas/expd_commercial_invoice.py:294-393 | `from_json(to_dict(inv))` is `inv`, with floats reparsed and `None` items read back as `[]` |
| CommercialInvoice.InvoiceScalarsRoundTrip | src/ContentProcessorAPI/samples/schemas/expd_commercial_invoice.py:341-360 | the addresses and every string and integer top-level field read back verbatim |
| CommercialInvoice.InvoiceItemsRoundTrip | src/ContentProcessorAPI/samples/schemas/expd_commercial_invoice.py:337-339 | the items read back in the same number and order, each one reparsed |

## Left out

- Collaborator internals are abstract outcomes. This covers the Content Understanding HTTP calls and the internals of
  `poll_result`, Cosmos `Schema.get_schema`, blob upload and download, `load_schema_from_blob` (dynamic code loading),
  `build_content_understanding_schema`, `get_generated_fields_model`, the OpenAI chat call, pdf2image rendering, PIL
  PNG encoding and `AnalyzedResult` parsing. Their code is not part of this model.
- The `print` of the previous step result, the HTTP helper's construction, the chat call's fixed system message and
  sampling parameters, and the text format of `model_dump_json` are not modelled. They do not affect the modelled outcome.
- `async`/`await` suspension and the cross-run provisioning race are left out, because they are concurrency.
- `json.loads` is not modelled: the previous output and the invoice document are given already decoded.
- Dictionary key order is not modelled: JSON objects are maps.
- `datetime.now()` in `EXPDCommercialInvoice.example()` is nondeterministic. The formatted date is the parameter `today`.
- The `MimeTypes.Pdf`, `MimeTypes.ImageJpeg` and `MimeTypes.ImagePng` constants are taken to be `application/pdf`,
  `image/jpeg` and `image/png`, because `mime_types.py` is not part of this model.
- The helpers `get_source_files`, `add_file`, `download_stream` and `upload_json_text`, and the `ArtifactType` and
  `PipelineLogEntry` definitions, are not part of this model. They are modelled by what the handlers rely on: a
  sequence of source files, an append to `files`, and an append to `log_entries`. Log timestamps are not modelled.
- CommercialInvoice.FromJson: pydantic validation is modelled by JSON kind. A `str` field takes a string; an `int`
  field an integer or an integral float; a `bool` field a boolean, 0 or 1; a `float` field a number or a string `parse`
  accepts. Other lax coercions of pydantic, such as numeric strings to `int`, words to `bool` or booleans to numbers,
  are modelled as validation errors.
- CommercialInvoice.FloatRoundTrip: floating point is modelled by `real`. The `f"{x:.2f}"` formatting and the reading back of
  such a string are the parameters `fmt` and `parse`, so the round-trip lemmas state floats as reparsed values rather
  than as the original ones.
- CommercialInvoice.ItemToDict: states the value of each of the thirteen keys, not that the dictionary has no other
  key.
- CommercialInvoice.ToDictShape: states the value of each of the eighteen keys, not that the dictionary has no other
  key.
- CommercialInvoice.ToDict: its own contract states only that the result is a dictionary; the value of each key is stated
  by `ToDictShape`, and the round-trip lemmas build on that.
- MapHandler.Execute: uploads only the validated data. The source overwrites `choices[0].message.parsed` of the chat
  response with the validated dump and uploads `gpt_response.model_dump_json()`, the whole response (map_handler.py:128,
  148); the rest of the chat response is not modelled.
- Json.Get, MapHandler.FirstElement, CommercialInvoice.ItemsOf: plain definitions of `dict.get`, `x[0]` and iteration over
  `items`, with no contract of their own; their effect is stated by `PreviousOutput`, `CreateAddress`/`CreateItem` and
  `FromJson`/`FromJsonAccepts`.
- The storage account URL `app_storage_blob_url` passed to every download, upload and schema load is not modelled:
  it is the same in every call, and the calls are identified by container and name.
- MapHandler.ImageToPrompt: has no contract of its own; what its data URL means is stated by `DataUrlRoundTrip`.
- CommercialInvoice.ItemsToJson: the `isinstance(item, InvoiceItem)` filter of `to_list` always holds in the model,
  because items are typed.
