# A verified model of the ComfyUI worker handler

This project models the job handler of a serverless worker that runs ComfyUI workflows
(`handler.py`). For one job the handler:

- validates the input;
- rewrites Windows-style paths in the workflow;
- waits for the ComfyUI HTTP API;
- converts image URLs to base64 and uploads the input images;
- submits the workflow, and formats the backend's 400 answer into a readable message;
- follows execution over a websocket, reconnecting when the socket closes;
- looks up the prompt's history and collects the output media, inline as base64 or through a
  temporary file and an external uploader;
- shapes everything into the job result.

Every call that leaves the process is a parameter of the model (an "oracle"):

- HTTP requests;
- websocket frames and connects;
- the `/view` endpoint;
- JSON and base64 decoding;
- the uploader and temporary-file writes;
- environment variables.

The `Handler.Backend` datatype gathers them. Pure functions give the specification. The
imperative methods (the retry loops, the monitoring loop, the upload loop, the collector
class, the in-place normalizer) are proved equal to those functions. The properties are
lemmas about the functions.

Modules, one per part of the handler:

- `Strings`: ASCII `lower`, `startswith` / `endswith`, substring `in`, `replace` and `join`.
  `Wrappers` holds `Option`.
- `JsonValues`: JSON values, `.get`, Python truthiness and the `in` test.
- `Media`: `is_video_file`, the video MIME chain and the inline size ceiling.
- `Reconnect`: `_attempt_websocket_reconnect`.
- `Monitor`: the receive loop.
- `OutputCollector`: the output collector and the transport sink. `Collector` is a class
  whose `outputData` and `errors` fields grow as `output_data` and `errors` do.
- `ResultShaping`: the history lookup and the final result.
- `Validation`: `validate_input`.
- `PathNormalization`: `normalize_workflow_paths`. `WorkflowDoc` holds the workflow that is
  rewritten in place.
- `ServerProbe`: `check_server`.
- `Uploads`: `upload_images`.
- `Submission`: `queue_workflow`.
- `Handler`: the handler, including its exception mapping.

## Model

| member | source | states |
|---|---|---|
| Strings.LowerIdempotent | handler.py:383 | lower-casing a lower-cased name changes nothing |
| Strings.JoinContainsPart | handler.py:634-636 | every part of a joined list occurs in the joined text |
| Media.VideoClassificationIgnoresCase | handler.py:738-749 | a name is a video exactly when its lower-cased form is |
| Media.SameLowerSameKind | handler.py:738-749 | names that differ only in letter case get the same classification |
| Media.ClipExamplesAreVideo | handler.py:748-749 | `clip.MP4` and `clip.mp4` are videos; `frame.PNG` is an image |
| Media.MimeTypeFollowsTable | handler.py:1064-1084 | a video whose lower-cased name ends with the k-th suffix gets the k-th MIME type, in any letter case |
| Media.MimeOfLoweredAt | handler.py:1066-1083 | the `if/elif` chain picks the MIME type of the one suffix the name ends with |
| Media.MimeTypeIsMp4Exactly | handler.py:1066-1083 | among videos, the type is `video/mp4` exactly for `.mp4` and `.m4v` names |
| Media.MimeTypeFallback | handler.py:1081-1083 | a name with no video suffix gets the generic `video/mp4` (a branch the handler never reaches, since only video names get a MIME type) |
| Media.InlineCeilingIsMegabyteComparison | handler.py:1049-1052 | the float megabyte comparison with 100 is the byte comparison with 100 MiB |
| Media.InlineCeilingExamples | handler.py:1049-1060 | 100 MiB + 1 byte of video is refused; 100 MiB and 99 MiB are accepted; images are never refused |
| Reconnect.AttemptReconnect | handler.py:197-265 | the retry loop returns the result and the probe/connect/sleep trace of the policy function `ReconnectRun` |
| Reconnect.ReconnectBoundedAndGated | handler.py:217-259 | at most `max_attempts` connects; each connect right after a successful probe; each sleep followed by another probe; a failed probe ends the trace |
| Reconnect.ConnectsBounded | handler.py:217-242 | the number of connects never exceeds the attempts left, and every trace starts with a probe |
| Reconnect.RunGated | handler.py:222-238 | no connect without a successful probe just before it |
| Reconnect.RunSleepsBetweenAttempts | handler.py:253-257 | a sleep is always followed by a further attempt, never by the end of the policy |
| Reconnect.RunUnreachableIsFinal | handler.py:222-231 | after a failed probe nothing else happens |
| Reconnect.UnreachableAbortsImmediately | handler.py:222-231 | a failed probe raises "unreachable" at once, after one probe and no connect |
| Reconnect.FirstSuccessReturned | handler.py:237-242 | after failed attempts, the first successful connect's socket is returned |
| Reconnect.ExhaustionCarriesLastError | handler.py:243-265 | when every attempt fails, the raised error carries the last attempt's error; there are n connects and n-1 sleeps |
| Reconnect.ZeroAttemptsKeepInitialError | handler.py:216-265 | with no attempts the policy raises at once with the error that closed the socket |
| Reconnect.SecondAttemptSucceeds | handler.py:165-166 | with the default 5 attempts, failing once and then connecting gives probe, connect, sleep, probe, connect |
| Monitor.MonitorExecution | handler.py:859-923 | the receive loop ends exactly as the specification `MonitorRun` of the received frames says |
| Monitor.IgnoredFrameChangesNothing | handler.py:862-918 | timeouts, binary frames, invalid JSON, status messages and other prompts' messages leave the loop's state unchanged |
| Monitor.ExitIsConfirmed | handler.py:880-890 | a loop that exits has either seen completion with no error or recorded exactly one execution error |
| Monitor.CompletionCharacterised | handler.py:871-881 | the loop ends in success exactly when a completion for this prompt arrives after frames that all pass |
| Monitor.ExecutionErrorRecordedOnce | handler.py:882-890 | an execution error for this prompt ends the loop with that one formatted error |
| Monitor.PassingFramesKeepWaiting | handler.py:861-918 | while every frame passes, the loop keeps waiting |
| Monitor.ReconnectThenComplete | handler.py:896-909 | a closed socket that reconnects on the second attempt is followed by the normal completion |
| OutputCollector.TransportEffect | handler.py:1000-1106 | fetched bytes yield exactly one output or one error; inline yields base64 data unless the video ceiling is hit; external yields the uploader's URL only when the write, the upload and the removal of the temporary file all succeed; a removal that raises after a good upload gives the upload error and no output |
| OutputCollector.EntryEffect | handler.py:966-1110 | a temp entry adds nothing; any other entry adds one output or one error; non-objects and missing filenames add no output; an output names its entry's file, and that file was fetched |
| OutputCollector.NodeEffectInKeyOrder | handler.py:953-959 | a node's media are handled in the order `images`, `gifs`, `animated` |
| OutputCollector.ListEffectAccountsForEveryEntry | handler.py:965-1110 | outputs plus errors equal the number of non-temp entries |
| OutputCollector.TempEntriesContributeNothing | handler.py:978-982 | dropping temp entries beforehand changes nothing |
| OutputCollector.OutputsComeFromNamedNonTempEntries | handler.py:973-997 | every output comes from a non-temp entry with that filename |
| OutputCollector.OutputsEffectAccountsForEveryEntry | handler.py:951-1110 | collection adds nothing exactly when every node has only temp media |
| OutputCollector.FetchFailureYieldsOneError | handler.py:1108-1110 | missing or empty bytes give one "Failed to fetch" error and no output |
| OutputCollector.InlineDataShape | handler.py:1063-1093 | an inline video is a `data:video/...;base64,` URI around the payload; an image is the bare payload |
| OutputCollector.MimeIsVideo | handler.py:1064-1084 | every MIME type chosen is a `video/` type |
| OutputCollector.UploadFailureContinues | handler.py:1032-1044 | a failed write, upload or removal records one error and processing goes on with the next entry |
| OutputCollector.AsWrittenLeaksExactlyOnWriteFailure | handler.py:1002-1044 | as written, with the earlier `temp_file_path` binding (if any) already removed, the new temporary file stays on disk exactly when the write raised, no other file changes, and the binding moves to the new file exactly when the write succeeded |
| OutputCollector.WriteFailureLeaksTempFile | handler.py:1002-1044 | derived from the lemma above: after one clean upload, a second file whose write raises `[Errno 28]` is left on disk |
| OutputCollector.Collector.constructor | handler.py:819-823 | the collector starts with no outputs, the errors seen so far and no temporary files |
| OutputCollector.Collector.StageAndUpload | handler.py:1000-1044 | appends the uploaded URL, or the write, upload or removal error; the temporary file is gone afterwards whether or not the write raised |
| OutputCollector.Collector.EncodeInline | handler.py:1045-1093 | appends the inline entry, or the too-large error for a video over the ceiling |
| OutputCollector.Collector.ProcessEntry | handler.py:966-1110 | appends what `EntryEffect` says, leaving no temporary file |
| OutputCollector.Collector.ProcessNode | handler.py:951-1121 | appends what `NodeEffect` says and returns the unhandled output keys |
| OutputCollector.Collector.CollectOutputs | handler.py:951-1121 | the loop over output nodes appends exactly what `OutputsEffect` says |
| ResultShaping.ShapeResult | handler.py:1144-1164 | failure exactly when nothing was produced and something went wrong; otherwise the outputs, the errors when there are any, and the no-media status when there is no output |
| ResultShaping.ResolveHistory | handler.py:929-948 | a missing prompt is an error result, with the earlier errors as details when there are any; a found prompt keeps the earlier errors and adds the no-outputs warning only when there are neither outputs nor errors |
| ResultShaping.FinishJob | handler.py:926-1164 | computes the result the specification `Finish` gives, through the collector class |
| ResultShaping.NoMediaStatusCharacterised | handler.py:944-1164 | `success_no_images` exactly when there were no errors and the prompt has output nodes that all hold only temp media |
| ResultShaping.EarlierErrorsAreReported | handler.py:929-1158 | errors from monitoring always reach the result, as a prefix of its details or errors |
| ResultShaping.ReturnedMediaAreCollected | handler.py:951-1158 | the returned images are exactly the collected ones, and a failure result means nothing was collected |
| ResultShaping.UnhandledKeyIsNotAWarning | handler.py:1112-1121 | a node with an unhandled `text` key adds no error: the result is the one image with no `errors` |
| ResultShaping.PngIsImage | handler.py:991-992 | `out.png` is classified as an image |
| Validation.ImageKeysAsWritten | handler.py:298-300 | when the written `all(...)` holds, each element passes `"name" in` |
| Validation.ImageKeysOnObjects | handler.py:296-304 | on object elements the written check and the intended one agree |
| Validation.ValidateInput | handler.py:268-314 | the corrected check, not the code as written (see Findings): a missing input gives the "Please provide input" rejection and nothing else does; an accepted input has a workflow, and its images are absent or a list of objects with both keys |
| Validation.ValidInputCharacterised | handler.py:268-314 | for the corrected check: accepted exactly when the input is, or decodes to, an object with a non-null workflow and well-formed images; the result carries its `workflow`, `images` and `comfy_org_api_key` |
| Validation.RaisesOnlyOnNonObjects | handler.py:284-293 | the corrected check raises exactly when the input is, or decodes to, a value that is not an object; the code as written also raises on a null, boolean or number `images` element |
| Validation.CorrectedAgreesOnObjectElements | handler.py:296-304 | when every `images` element is an object, the corrected check and the code as written give the same verdict and values |
| Validation.StringImageElementAccepted | handler.py:296-304 | as written, the string element `"name image"` is accepted and a number element raises; the intended check rejects both |
| PathNormalization.Slashed | handler.py:399 | the rewritten value has no backslash |
| PathNormalization.NormalizeInputs | handler.py:391-400 | normalization keeps the input names |
| PathNormalization.WorkflowDoc.constructor | handler.py:353 | the document holds the given workflow |
| PathNormalization.WorkflowDoc.NormalizePaths | handler.py:353-403 | rewriting in place leaves the document equal to `NormalizedWorkflow` of its old contents |
| PathNormalization.WorkflowDoc.NormalizeInputsInPlace | handler.py:391-400 | the loop over one node's inputs yields `NormalizeInputs` |
| PathNormalization.ValueChangesIff | handler.py:393-400 | a value changes exactly when it is a string with a backslash under a path-like key, or one that ends like a file |
| PathNormalization.ChangedValueIsSlashed | handler.py:399-400 | a changed value is the original with every backslash replaced by `/`, with the same length |
| PathNormalization.NormalizeValueIdempotent | handler.py:393-400 | normalizing a value twice is normalizing it once |
| PathNormalization.NormalizeNodeIdempotent | handler.py:386-400 | normalizing a node twice is normalizing it once |
| PathNormalization.NormalizationIdempotent | handler.py:353-403 | normalizing a workflow twice is normalizing it once |
| PathNormalization.NormalizationTouchesOnlyInputValues | handler.py:385-401 | node ids, other node fields and input names are kept; only input values change, each as `NormalizeValue` says |
| PathNormalization.CheckpointPathRewritten | handler.py:368-400 | `models\sd.safetensors` under `ckpt_name` becomes `models/sd.safetensors` |
| PathNormalization.PromptTextKept | handler.py:378-398 | a prompt text `a\b` under `text` is left alone |
| PathNormalization.TextIsNoPathField | handler.py:395 | `text` is not a path-like key |
| ServerProbe.CheckServer | handler.py:317-350 | up exactly when one of the `retries` probes answers 200; it stops at the first success and sleeps after every failed probe |
| ServerProbe.HandlerBudget | handler.py:156-158 | with 500 probes 50 ms apart, the handler waits at most 25 s and exactly 25 s when the server never answers |
| Uploads.StripDataUriRemovesHeader | handler.py:460-462 | a header, a comma and a payload strip to the payload, even when the payload holds commas |
| Uploads.StripDataUriKeepsBarePayload | handler.py:463-465 | a string without a comma is kept as bare base64 |
| Uploads.UploadImages | handler.py:433-518 | the upload loop returns the summary `Summary` gives |
| Uploads.EveryImageAccountedFor | handler.py:453-503 | every image gives exactly one success line or one error line |
| Uploads.NoErrorsIffAllUploaded | handler.py:505-518 | no error line exactly when every image uploaded |
| Uploads.SummaryCharacterised | handler.py:445-518 | success exactly when every image uploaded; a success lists one line per image, a failure at least one error |
| Submission.BuildPayload | handler.py:566-575 | the payload carries the workflow and client id, and any credential it carries is truthy |
| Submission.CredentialPrecedence | handler.py:572-575 | a truthy request key wins, then a non-empty environment key; with neither there is no `extra_data` |
| Submission.LinesOf | handler.py:607-614 | one line per entry of an object node error, one for any other value, each naming its node |
| Submission.ScopedLine | handler.py:611-614 | every detail line starts with `Node <id>` |
| Submission.NodeLinesAreScoped | handler.py:606-614 | every detail line starts with `Node <id>` for one of the nodes in `node_errors` |
| Submission.NodeLinesInNodeOrder | handler.py:606-614 | the lines of node k are exactly the block that follows the lines of the nodes before it, so lines come node by node in `node_errors` order |
| Submission.NodeLineCount | handler.py:606-614 | the number of detail lines is the sum over nodes of their entries |
| Submission.EveryNodeErrorReported | handler.py:633-649 | every node detail appears as a bullet in the raised message |
| Submission.CheckpointsListedWhenRelevant | handler.py:617-647 | for a failed-outputs body, or a missing `ckpt_name` detail, every available checkpoint is named in the message |
| Submission.CheckpointsIrrelevantOtherwise | handler.py:633-652 | in every other case the message does not depend on the checkpoint list |
| Submission.OutputsFailedValidationMessage | handler.py:617-630 | a failed-outputs body is reported by its own message and the model hint, whatever its `error` and `node_errors` say |
| Handler.ConvertImageUrls | handler.py:793-808 | the conversion loop gives `ConvertUrls`: every URL replaced by its download, or the first URL that failed |
| Handler.ConvertUrlsSucceeds | handler.py:793-808 | conversion succeeds exactly when every URL image downloads; it then yields one image per input, each URL replaced by its base64 download and every other image unchanged |
| Handler.ConvertUrlsFirstFailure | handler.py:797-803 | a failed conversion reports the URL of the first image whose download fails |
| Handler.RunHandler | handler.py:752-1175 | the handler ends, and submits, exactly as the specification `Handle` says |
| Handler.RunValidJob | handler.py:776-857 | after validation, the handler follows `HandleValid` |
| Handler.UploadStage | handler.py:810-817 | upload fails exactly when there are images and the summary is an error; it then returns the error details |
| Handler.SubmitAndWait | handler.py:833-1142 | submission, monitoring, history and collection end as `AfterSubmission` says |
| Handler.SubmittedOnce | handler.py:833-857 | at most one workflow is submitted: the valid input's normalized workflow with its credential, whatever the websocket later delivers |
| Handler.InvalidInputAnsweredAtOnce | handler.py:771-773 | a rejected input is answered with its message and nothing is submitted |
| Handler.ExitAlwaysReachesHistory | handler.py:920-948 | a loop that exits always goes on to the history lookup, and an HTTP error there is reported as such |
| Handler.UploadFailureStopsBeforeSubmission | handler.py:810-817 | when any image fails to upload the job stops with the upload error and submits nothing |

## Left out

- Logging, `print`, the websocket trace toggle and the image/video count log lines: none of
  them reaches the result.
- Sleep durations, timeouts, `uuid` and the socket URL. The model counts sleeps but not their
  length. The client id is a parameter.
- Real I/O: HTTP, websockets, the filesystem, `json.loads`, `base64` and environment
  variables are oracles in `Handler.Backend`.
- `convert_url_to_base64`, `get_history`, `get_image_data`/`get_video_data` and
  `get_available_models` are oracles. Their own bodies are not part of this model.
- The temporary-file store is a ghost set of paths (`liveTemps`), not a filesystem.
- A failing `os.remove` inside the `except` block is not distinguished: it is only logged. After a
  removal that raised following a good upload, the `except` block tries the removal again; the
  model treats the file as removed.
- OutputCollector.TooLargeError: the message leaves out the `:.2f` megabyte figure and the
  advice sentence about S3, because floating-point formatting is not modelled.
- The `MemoryError` and other exceptions of the base64 encoder are not modelled; the encoder
  is a total oracle.
- A media value that is not a list is not modelled: a string or an object is iterated, so each
  character or key draws the "Skipping non-dict media file" warning, and a null or a number
  raises, reported as an unexpected error. The model's media values are lists.
- An `outputs` value that is not an object is not modelled: it raises at `.items()`, reported as
  an unexpected error. The model's outputs are a list of nodes.
- A `prompt_id` that is not a string is not modelled: it is only compared and looked up, which
  ends in "not found" or in a wait that does not end. The model's prompt ids are strings.
- Reconnect: only the websocket exceptions the policy catches are modelled. Anything else
  raised by a connect is outside the model.
- Handler.RunHandler: the text of "An unexpected error occurred: …" is not modelled. The
  outcome `UnexpectedError` stands for it.
- The `finally` clause that closes the socket has no effect on the result and is left out.
- Values that are not strings are printed through `str()`. That rendering is an oracle
  (`show`, `describe`, the `printed` fields).
- `str.lower` is ASCII lower-casing. JSON numbers are integers and objects are maps without
  key order, except where order matters: output nodes and `node_errors` are ordered lists.
- Handler.ConvertImageUrls: the in-place `image["image"] = …` update is modelled as building
  a new list of images. Aliasing of the job's input is not captured.
- Handler.RunHandler: the handler validates with the corrected `Validation.ValidateInput`
  (see Findings), not the code as written. On an `images` element that is not an object
  the code either raises inside `validate_input` (a null, boolean or number) or accepts it
  and then raises at line 795 outside its `try` (a string or list holding both words); the
  model rejects such input with the images message instead. On every other input the two
  checks agree (`Validation.CorrectedAgreesOnObjectElements`).
- A `filename` that is truthy but not a string makes `is_video_file` raise, which the
  handler reports as an unexpected error; the model's filenames are strings.
- A `prompt_outputs_failed_validation` body whose `message` is `null` makes the message
  concatenation raise `TypeError`, reported as "Unexpected error queuing workflow"; the
  model's `bodyMessage` is a string or absent.
- The external sink's `transfer` oracle is keyed by filename, so two entries with the same
  name in different subfolders get the same upload result in the model.
- Apart from the validation check above, where the code and its documentation disagree,
  the model follows the code:
  - unhandled output keys are only logged, not added to `errors`;
  - an empty `outputs` with no earlier error adds the "No outputs" warning, so the result is
    then a failure, not `success_no_images`.

## Findings

| source | as written | input that shows it | evidently intended | confidence | as-written member | corrected member |
|---|---|---|---|---|---|---|
| handler.py:1002-1044 | the temporary file is created before the bytes are written to it, but `temp_file_path` is bound only after the write, so when the write raises the cleanup guard does not see the file | an external-mode output whose write raises `[Errno 28] No space left on device` | the staged file is removed on every path | not executed | OutputCollector.WriteFailureLeaksTempFile | OutputCollector.Collector.StageAndUpload |
| handler.py:296-304 | `"name" in image and "image" in image` is a substring test on a string element; a number element raises `TypeError` | `{"workflow": {}, "images": ["name image"]}` is accepted, and the handler then calls `.get` on the string at line 795 and raises outside its `try` | every element must be an object with `name` and `image`, or the input is rejected with the images message | not executed | Validation.StringImageElementAccepted | Validation.ValidateInput |
