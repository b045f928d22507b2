# automatic-spoon control plane, modelled in Dafny

automatic-spoon is a local image-generation server. Users register AI
models (checkpoints, VAEs, LoRAs, ControlNets, embeddings and IP-adapters),
combine them into engines, and create generators that each run an engine in
a worker process on a GPU. Jobs of prompts are then sent to a generator.
This project models the part of the server that decides and records things:

- the services and repositories that validate requests, store engines,
  generators and jobs, read them back and delete them;
- the process manager, which keeps one command queue per running generator
  and turns the workers' READY and CLOSED events into generator statuses;
- the worker loop, which announces READY, renders each job's images, emits
  IMAGE_FINISHED and JOB_FINISHED events, and ends with CLOSED;
- the JSON codec of the worker events;
- the pipeline helpers:
  - choosing the diffusers pipeline class and the VAE;
  - building the trigger words of embeddings;
  - splitting long SDXL prompts into token chunks;
  - assembling the arguments of a pipeline call;
- the assembly of ControlNet conditioning images from reference images.

The database is a `Store.Database` object. Its tables are sequences of rows
in insertion order, and one counter hands out keys. The files on disk are a
`Store.FileSystem` object holding a set of paths. Code that changes state
step by step is written as classes and methods with loop invariants:
the repositories, the manager and the worker. Code that only computes is
written as functions with lemmas: the codec, the generator and model
services, and the pipeline selection table.

The modules follow the source files:

- `EventCodec`: `process/types.py`.
- `Worker`: `process/generator.py`.
- `Manager`: `generators/manager.py`.
- `Pipe`: `process/pipe.py`.
- `Pose`: `process/pose.py`.
- `EngineRepo` and `EngineService`: `engines/`.
- `JobRepo` and `JobService`: `jobs/`.
- `GeneratorService`: `generators/services.py`.
- `AIModelRepo` and `AIModelService`: `aimodels/`.

`Base`, `Enums`, `Schemas`, `Store` and `Text` hold the shared vocabulary:
- Python truthiness and `or`;
- `str(int)`;
- `str.split`, `str.join` and `str.strip`;
- the pydantic records.

## Model

The source cells cite the code as written. Where that code is faulty (see "## Findings"), the rows marked "corrected, see Findings" describe the member that models the evidently intended behaviour, which the rest of the model uses; the member that models the code as written is named in the Findings table. Rows marked "no contract of its own" name a definition whose properties are stated by the lemmas listed in the row.

| member | source | states |
|---|---|---|
| EventCodec.FindEventType | src/api/v1/generators/process/types.py:64 | a kind found has the string value looked up and is one of the kinds searched; None exactly when no kind has that value |
| EventCodec.Encode | src/api/v1/generators/process/types.py:49-57 | the encoding is an object with exactly the keys generator_name, generator_id, event and value; the event is written as its string value; the value is null exactly when the event carries none |
| EventCodec.DecodeKind | src/api/v1/generators/process/types.py:61-81 | decoding gets past the tests on the kind only for JOB_FINISHED, IMAGE_FINISHED and ERROR, and only on an object holding "event" and "value" |
| EventCodec.FindEventTypeOfValue | src/api/v1/generators/process/types.py:64 | looking up a kind's own string value finds that kind, so distinct kinds have distinct values |
| EventCodec.DecodeInvalidEventType | src/api/v1/generators/process/types.py:63-66 | an event string that is the value of no kind makes decoding raise ValueError "Invalid GeneratorEventType" |
| EventCodec.KindOfEncoded | src/api/v1/generators/process/types.py:49-81 | the kind of an encoded event is found again; it is accepted for JOB_FINISHED, IMAGE_FINISHED and ERROR and refused as unhandled for every other kind |
| EventCodec.ReadyAndClosedDoNotRoundTrip | src/api/v1/generators/process/types.py:71-81 | a READY or CLOSED event is encoded, but decoding that encoding raises ValueError "Unhandled GeneratorEventType" |
| EventCodec.NullValueDecodesToNone | src/api/v1/generators/process/types.py:69-79 | for JOB_FINISHED, IMAGE_FINISHED and ERROR, a null value decodes to an event with value None and the other fields as given |
| EventCodec.PayloadRoundTrip | src/api/v1/generators/process/types.py:53-79 | decoding the encoding of a record gives it back if and only if it is the record type the kind names |
| EventCodec.ValueOfEncoded | src/api/v1/generators/process/types.py:53-79 | an encoded value, null included, decodes back if and only if it is absent or is the record its kind names |
| EventCodec.RoundTrip | src/api/v1/generators/process/types.py:49-89 | decode(encode(e)) == e if and only if e's kind is JOB_FINISHED, IMAGE_FINISHED or ERROR and its value is absent or the record of that kind; name, id, kind and value all come back |
| EventCodec.EncodePayload | src/api/v1/generators/process/types.py:53-55 | The value record is written as an object whose every field is an integer or a string, so it is never null and an absent value stays recognisable |
| EventCodec.DecodePayload | src/api/v1/generators/process/types.py:69-79 | A value that is not an object raises TypeError; a record that is built is the record its event kind names and encodes back to exactly the object it was read from (typed fields: see Left out) |
| EventCodec.DecodeValue | src/api/v1/generators/process/types.py:69-79 | null decodes to no value; a value that is decoded is the record its kind names and encodes back to the JSON it was read from |
| EventCodec.Decode | src/api/v1/generators/process/types.py:61-89 | A document that is not an object raises TypeError; a decoded event carries the record its kind names, and each key of its encoding holds the same JSON in the document, so other keys are ignored (typed fields: see Left out) |
| Manager.AllClosed | src/api/v1/generators/manager.py:22-29 | reconciliation keeps the set of generators and leaves every one of them CLOSED |
| Manager.ReconcileIsIdempotent | src/api/v1/generators/manager.py:22-29 | on a repository that is already reconciled, the only write sequence reconciliation may make is the empty one |
| Manager.StatusFor | src/api/v1/generators/manager.py:55-69 | a READY result maps to status READY and a CLOSED result to status CLOSED, each if and only if; every other result kind maps to no write |
| Manager.DispatchLastWins | src/api/v1/generators/manager.py:48-69 | the dispatch loop keeps the set of generators and writes only READY or CLOSED; if it does not fail, each generator ends with the status of its last READY or CLOSED result, or its old status when it got none |
| Manager.DispatchFailsOnUnknown | src/api/v1/generators/manager.py:55-69 | the loop fails if and only if some READY or CLOSED result names a generator the repository does not hold |
| Manager.DispatchStep | src/api/v1/generators/manager.py:50-59 | the loop over results is the first result's dispatch followed by the loop over the rest, in its statuses, its error and its status writes, and a failure stops it |
| Manager.DispatchAll | src/api/v1/generators/manager.py:50-69 | (no contract of its own) The dispatch of READY and CLOSED results in order, stopping at the first unknown generator; stated by Manager.DispatchAllKeepsIds, Manager.DispatchStep, Manager.DispatchLastWins and Manager.DispatchFailsOnUnknown |
| Manager.DispatchAllKeepsIds | src/api/v1/generators/manager.py:50-69 | The loop neither adds nor removes generators, writes statuses only for known ones, and its only failure is "generator-is-not-found" |
| Manager.ProcessManager.UpdateStatus | src/api/v1/generators/repositories.py:38-50 | an unknown id raises "generator-is-not-found" (404) with no write; otherwise only that generator's status changes and one write is logged |
| Manager.ProcessManager.OnProcessManagerInit | src/api/v1/generators/manager.py:22-29 | every generator not CLOSED becomes CLOSED, with exactly one CLOSED write each; generators already CLOSED are not written; earlier writes are kept |
| Manager.ProcessManager.StartGenerator | src/api/v1/generators/manager.py:71-101 | an id already registered changes nothing and spawns nothing; an id of None raises "generator-id-is-none" and registers nothing; otherwise exactly one process is spawned with the generator's name, id and engine, and exactly one entry with an empty command queue is added, the other entries unchanged |
| Manager.ProcessManager.StopGenerator | src/api/v1/generators/manager.py:103-109 | an unknown id changes nothing; a known id gets exactly one CLOSE command appended to its queue, and the registry is otherwise unchanged |
| Manager.ProcessManager.Dispatch | src/api/v1/generators/manager.py:55-69 | one result changes the statuses, the write log and the error exactly as the dispatch loop's reference definition does for that one result |
| Manager.ProcessManager.InfiniteLoop | src/api/v1/generators/manager.py:48-59 | reconciliation and then the results in order leave the statuses and the error that the dispatch reference definition gives from the reconciled statuses; the status write log grows by the reconciliation's writes and then exactly the writes of that dispatch |
| Manager.ClosedThenStartAgain | src/api/v1/generators/manager.py:66-73 | after a CLOSED result for a registered generator its status is CLOSED, its registry entry stays, and starting it again spawns nothing and changes no entry |
| Worker.RunImagesAt | src/api/v1/generators/process/generator.py:134-162 | Running the images loop from image i is that image's block (load, render, IMAGE_FINISHED) followed by the loop from image i+1 |
| Worker.RunCommandsStep | src/api/v1/generators/process/generator.py:108-177 | A command that ends the loop leaves the commands behind it unread; any other command's activity is followed by the loop on the rest of the queue |
| Worker.Events | src/api/v1/generators/process/generator.py:100-186 | The event queue holds exactly the emitted events, in the order they were emitted, and nothing else |
| Worker.EventsAppend | src/api/v1/generators/process/generator.py:100-186 | The events of two consecutive stretches of activity are the events of the first followed by those of the second |
| Worker.ImagesEvents | src/api/v1/generators/process/generator.py:134-162 | Every event the images loop emits names this worker and is neither READY nor CLOSED |
| Worker.LoopEvents | src/api/v1/generators/process/generator.py:108-177 | The command loop emits no READY and no CLOSED, every event names this worker, a loop that ends consumes at least one command, and a loop that blocks has read the whole queue |
| Worker.ReadyExactlyOnceFirst | src/api/v1/generators/process/generator.py:98-107 | The pipeline is built first, READY is the first event, and READY is emitted exactly once in the worker's life |
| Worker.ClosedIsLast | src/api/v1/generators/process/generator.py:175-186 | When a CLOSE command ends the loop CLOSED is the last event and appears exactly once; when the loop ends otherwise CLOSED never appears; every event carries the worker's name and id |
| Worker.MissingPayloadReportsError | src/api/v1/generators/process/generator.py:111-127 | A JOB command without a job emits one ERROR event "command-value-was-none" and the loop goes on with the next command |
| Worker.CloseStopsReading | src/api/v1/generators/process/generator.py:175-177 | A CLOSE command ends the loop at once, with no activity, and the commands queued behind it stay unread |
| Worker.RunImagesFrom | src/api/v1/generators/process/generator.py:131-162 | From image k on, the images loop of a job whose images all have ids produces exactly the reference blocks, never fails, and ends in the state the reference predicts |
| Worker.JobMatchesReference | src/api/v1/generators/process/generator.py:128-174 | A job whose ids are set is handled exactly as the reference: image by image with the adapter loaded once before the second image, the unload when loaded, then JOB_FINISHED |
| Worker.BlocksEvents | src/api/v1/generators/process/generator.py:155-162 | The reference blocks from image k emit exactly the IMAGE_FINISHED events of images k onwards, in order |
| Worker.JobEvents | src/api/v1/generators/process/generator.py:128-174 | A job with n images emits n IMAGE_FINISHED events carrying the job id and each image id in image order, then exactly one JOB_FINISHED |
| Worker.BlocksLoads | src/api/v1/generators/process/generator.py:137-146 | Across the reference blocks the adapter is loaded once in total when the job uses it and the blocks include the second image, and never otherwise |
| Worker.IpAdapterDiscipline | src/api/v1/generators/process/generator.py:131-174 | The adapter is loaded exactly once when the job has two or more images and an adapter configuration, and never otherwise; each image is rendered with the first image's file as adapter image exactly when it is not the first and the job uses the adapter; the unload comes right before JOB_FINISHED exactly when the adapter was loaded |
| Worker.BlockInBlocks | src/api/v1/generators/process/generator.py:134-162 | Image k is rendered, with the adapter image the reference assigns it, within the blocks from any earlier image |
| Worker.GeneratorProcess.constructor | src/api/v1/generators/process/generator.py:41-55 | A new worker holds its name, generator id, GPU, engine and command queue, and has done nothing yet |
| Worker.GeneratorProcess.RenderImage | src/api/v1/generators/process/generator.py:135-162 | One image: the adapter is loaded with the previous image when configured and not yet loaded, the image is rendered, IMAGE_FINISHED is emitted, and the per-job state advances as the images loop prescribes |
| Worker.GeneratorProcess.RenderImages | src/api/v1/generators/process/generator.py:131-162 | The images loop appends exactly the activity of the images-loop reference definition, ends in its state, and fails exactly when an image has no id |
| Worker.GeneratorProcess.ProcessJob | src/api/v1/generators/process/generator.py:128-174 | The handling of a job appends exactly the job reference definition's activity and fails exactly when the job or one of its images has no id |
| Worker.GeneratorProcess.HandleCommand | src/api/v1/generators/process/generator.py:110-177 | One command appends exactly the activity of one turn of the command loop and stops the loop exactly when the turn does |
| Worker.GeneratorProcess.CommandLoop | src/api/v1/generators/process/generator.py:108-177 | The loop consumes commands until one stops it, appending exactly the command-loop reference definition's activity and leaving its unread rest in the queue |
| Worker.GeneratorProcess.Listening | src/api/v1/generators/process/generator.py:98-186 | The whole life of the worker on its queue: build, READY, the command loop, and CLOSED only after a CLOSE command, exactly as the listening reference definition states |
| Worker.StartGenerator | src/api/v1/generators/process/generator.py:189-201 | A fresh worker with the given name and id runs `listening` on the queued commands, with the outcome and activity the listening reference definition gives |
| Worker.RunImages | src/api/v1/generators/process/generator.py:131-162 | The images loop fails its assertion exactly when some image of the job has no id |
| Worker.RunJob | src/api/v1/generators/process/generator.py:128-174 | Handling a job fails exactly when the job or one of its images has no id; otherwise its last activity is the JOB_FINISHED event for the job |
| Worker.CommandTurn | src/api/v1/generators/process/generator.py:110-177 | A command ends the loop as closed exactly when it is CLOSE, never as blocked, and a JOB command without a job does not end it |
| Worker.RunCommands | src/api/v1/generators/process/generator.py:108-177 | (no contract of its own) The command loop over a queue's contents; stated by Worker.LoopEvents, Worker.RunCommandsStep, Worker.CloseStopsReading and Worker.MissingPayloadReportsError |
| Worker.Listen | src/api/v1/generators/process/generator.py:98-186 | (no contract of its own) The whole life of the worker on a queue; stated by Worker.ReadyExactlyOnceFirst and Worker.ClosedIsLast |
| Pipe.SelectPipeline | src/api/v1/generators/process/pipe.py:121-141 | A pipeline class is chosen exactly when the checkpoint's base is SD or SDXL, and it is for that base; it is an img2img class exactly for IMG2IMG and a ControlNet class exactly for TXT2IMG with at least one control net |
| Pipe.DtypeOf | src/api/v1/generators/process/pipe.py:117-119 | A model is loaded in float32 exactly when its variant is FP32, float16 otherwise |
| Pipe.LoaderOf | src/api/v1/generators/process/pipe.py:157-160 | A FILE path is loaded with `from_single_file` and only a FILE path; a Hugging Face path with `from_pretrained` |
| Pipe.Shape | src/api/v1/generators/process/pipe.py:150-154 | A list of one is passed as its single element and any other list as the list; either way it stands for exactly the list's elements |
| Pipe.CreateVae | src/api/v1/generators/process/pipe.py:88-109 | The VAE is loaded from its path with its dtype and the loader of its path type; the variant is dropped exactly for a Hugging Face path that already contains the variant's name, and is that name otherwise |
| Pipe.CreatePipe | src/api/v1/generators/process/pipe.py:112-164 | The assertion fails exactly when no pipeline class fits the checkpoint's base; otherwise the chosen class is loaded from the checkpoint's path with its loader, dtype and variant, safetensors on, the VAE if any, and the control nets passed as one model, as a list, or not at all exactly as there are one, several or none |
| Pipe.Trigger | src/api/v1/generators/process/pipe.py:238-243 | The token is empty exactly when the embedding has no trigger words; it starts with the negative words and a space when there are some, ends with the positive words and a space when there are some, and has exactly those two pieces' length |
| Pipe.EmbeddingLoadOf | src/api/v1/generators/process/pipe.py:245-248 | An SDXL embedding is loaded through the two-encoder loader and every other one through textual inversion, from its path and under its trigger token |
| Pipe.BuildTrigger | src/api/v1/generators/process/pipe.py:238-243 | The trigger built step by step is the embedding's trigger token: its negative words, then its positive words, each followed by a space |
| Pipe.LoadEmbeddings | src/api/v1/generators/process/pipe.py:236-248 | One load per embedding, in the embeddings' order, each the load that embedding calls for |
| Pipe.ChunkStepKeeps | src/api/v1/generators/process/pipe.py:368-384 | One iteration of the chunking loop keeps its invariant: the closed chunks and the open one concatenate to the parts read so far, the count is the open chunk's tokens, every chunk of two or more parts fits, and each closed chunk was closed by a part that did not fit |
| Pipe.ChunkFoldInvariant | src/api/v1/generators/process/pipe.py:364-384 | The chunking loop's invariant holds after any number of parts |
| Pipe.CloseFinalChunk | src/api/v1/generators/process/pipe.py:387-389 | Closing the last open chunk gives chunks that partition the parts, fit, and were each closed by overflow |
| Pipe.ChunksAreValid | src/api/v1/generators/process/pipe.py:362-389 | The chunks of the parts concatenate back to the parts, are none of them empty, each fit unless a single part, and each was closed by the next one's first part overflowing it |
| Pipe.ChunksPartition | src/api/v1/generators/process/pipe.py:362-389 | The chunks partition the parts in order, no chunk is empty, and there are no chunks exactly when there are no parts |
| Pipe.OversizedChunksAreSingletons | src/api/v1/generators/process/pipe.py:374-384 | A chunk goes over the token budget only when it holds a single part |
| Pipe.ChunksGreedy | src/api/v1/generators/process/pipe.py:368-384 | Inside each chunk every part fitted in the budget when it was added, and every chunk after the first starts with a part that would have taken the previous chunk over the budget |
| Pipe.JoinChunks | src/api/v1/generators/process/pipe.py:375-376 | One text per chunk, each the chunk's parts joined with ", " |
| Pipe.ChunkParts | src/api/v1/generators/process/pipe.py:364-392 | The chunking loop returns exactly the joined greedy chunks of the parts |
| Pipe.PromptParts | src/api/v1/generators/process/pipe.py:362 | One part per comma-separated piece of the prompt, at least one, each piece stripped of surrounding whitespace |
| Pipe.BuildLongPromptEmbeds | src/api/v1/generators/process/pipe.py:322-419 | A prompt within the budget is encoded whole in one call; a longer one is encoded as its joined greedy chunks, in order; the pooled embedding always comes from the last text encoded |
| Pipe.RunPipe | src/api/v1/generators/process/pipe.py:480-536 | The keyword arguments of the pipeline call are exactly those the argument reference definition gives for the image, the engine and the outcome of the pose-image preparation |
| Pipe.PipeKwargs | src/api/v1/generators/process/pipe.py:480-536 | The call fails exactly when the image has control images and their assembly failed, with that failure's error; the arguments themselves are stated by the Pipe.RunPipe lemmas |
| Pipe.RunPipeFallbacks | src/api/v1/generators/process/pipe.py:481-489 | The call fails exactly when the image has control images and their preparation fails, with that error; seed, height, width, guidance scale and steps are always passed, each the image's value when truthy and the engine's otherwise |
| Pipe.RunPipeControlKeys | src/api/v1/generators/process/pipe.py:495-511 | The image, conditioning-scale and control-guidance arguments are passed exactly when the image has control images |
| Pipe.RunPipeControlArgs | src/api/v1/generators/process/pipe.py:495-511 | With control images, the prepared images and scales are each passed as a scalar exactly when there is one and as the list otherwise, and the guidance window falls back to the engine's when the image's is falsy |
| Pipe.RunPipePromptArgs | src/api/v1/generators/process/pipe.py:513-528 | The prompt strings are passed exactly when the engine has no long-prompt technique and the prompt embeddings exactly when it has one, the pooled ones only when present |
| Pose.ReferenceScale | src/api/v1/generators/process/pose.py:21-23 | Every detection gets the control image's own scale when it is truthy and the engine's scale otherwise |
| Pose.Detect | src/api/v1/generators/process/pose.py:26-84 | A model is applied exactly when it has a control-net type and, for CANNY, the control image has both thresholds; without a type it raises "no-contron-net-type-in-model", a missing threshold fails the assertion, and a detection is of the model's kind on the control image's reference file |
| Pose.DetectAllKeepsError | src/api/v1/generators/process/pose.py:26-31 | Once a model fails the loop is over: the whole run fails with that error |
| Pose.DetectAllShape | src/api/v1/generators/process/pose.py:26-86 | The detection loop succeeds exactly when every model can be applied, and then returns one image and one copy of the scale per model, in model order |
| Pose.DetectAllOk | src/api/v1/generators/process/pose.py:26-86 | The detection loop gets through every model exactly when each of them can be applied |
| Pose.OkEachApplies | src/api/v1/generators/process/pose.py:26-86 | A run that succeeds has applied every one of its models |
| Pose.EachAppliesOk | src/api/v1/generators/process/pose.py:26-86 | When each model can be applied the run succeeds |
| Pose.DetectAllValues | src/api/v1/generators/process/pose.py:26-86 | A successful run holds, for each model in order, that model's detection and the one chosen scale |
| Pose.DetectAllFirstFailure | src/api/v1/generators/process/pose.py:26-86 | A failing run reports the error of the first model that cannot be applied |
| Pose.DetectAll | src/api/v1/generators/process/pose.py:26-86 | (no contract of its own) The detection loop over the engine's control-net models; stated by Pose.DetectAllOk, Pose.DetectAllValues, Pose.DetectAllKeepsError and Pose.DetectAllFirstFailure |
| Pose.PosesFromReference | src/api/v1/generators/process/pose.py:17-25 | Without a scale on the control image or the engine the assertion fails before any model is looked at |
| Pose.ReferencePoses | src/api/v1/generators/process/pose.py:17-86 | Without a scale on either the control image or the engine the assertion fails, even for an engine without control nets; otherwise the run succeeds exactly when every engine control-net model can be applied, and returns one detection of each model's kind and one copy of the chosen scale per model, in engine order |
| Pose.MissingTypeRaises | src/api/v1/generators/process/pose.py:27-31 | An engine control-net model without a type, reached before any other failing model, raises "no-contron-net-type-in-model" |
| Pose.PosesFromReferenceImage | src/api/v1/generators/process/pose.py:17-86 | The loop returns exactly the detections and scales that the reference-pose definition gives, or its error |
| Pose.ContributionShape | src/api/v1/generators/process/pose.py:92-102 | A control image that names a model contributes one image and one scale; one without contributes one of each per engine control-net model |
| Pose.PrepareAllKeepsError | src/api/v1/generators/process/pose.py:92-98 | The first control image whose detection fails ends the assembly with its error |
| Pose.PrepareAllLength | src/api/v1/generators/process/pose.py:89-104 | The image and scale lists have the same length: the sum of what the control images contribute |
| Pose.PrepareAllSegment | src/api/v1/generators/process/pose.py:89-104 | The output follows the order of the control images: the k-th one's images and scales sit in the same slice of both lists, after those of the control images before it |
| Pose.PreparePoseImages | src/api/v1/generators/process/pose.py:89-104 | The loop returns exactly the concatenated contributions of the image's control images, or the first error |
| Pose.PrepareAll | src/api/v1/generators/process/pose.py:89-104 | (no contract of its own) The assembly over an image's control images; stated by Pose.PrepareAllLength, Pose.PrepareAllSegment and Pose.PrepareAllKeepsError |
| Text.Join | src/api/v1/generators/process/pipe.py:375 | Joining a single part gives that part back |
| Text.Split | src/api/v1/generators/process/pipe.py:362 | Splitting gives at least one piece and no piece contains the separator |
| Text.SplitJoin | src/api/v1/generators/process/pipe.py:362 | Joining the pieces of a split with the separator gives the original string back |
| Text.JoinSplit | src/api/v1/generators/process/pipe.py:362 | Splitting a join of separator-free pieces gives the pieces back |
| Text.SplitPlain | src/api/v1/generators/process/pipe.py:362 | A string without the separator splits into itself alone |
| Text.SplitAround | src/api/v1/generators/process/pipe.py:362 | A string that is a separator-free piece, the separator and a rest splits into that piece followed by the pieces of the rest |
| Text.TrimStart | src/api/v1/generators/process/pipe.py:362 | Left-stripping removes a prefix made only of whitespace and leaves a string that is empty or starts with non-whitespace |
| Text.TrimEnd | src/api/v1/generators/process/pipe.py:362 | Right-stripping removes a suffix made only of whitespace and leaves a string that is empty or ends with non-whitespace |
| Text.Strip | src/api/v1/generators/process/pipe.py:362 | Stripping leaves the string framed by whitespace on both sides, and the result neither starts nor ends with whitespace |
| Text.StripIdempotent | src/api/v1/generators/process/pipe.py:362 | Stripping an already stripped part changes nothing |
| Text.Contains | src/api/v1/generators/process/pipe.py:103 | Substring containment holds exactly when the substring occurs at some position |
| EngineRepo.FindModel | src/api/v1/engines/repositories.py:124-126 | A model found is stored and has the id and the type looked up; nothing is found exactly when no stored model has both |
| EngineRepo.FindEngine | src/api/v1/engines/repositories.py:18 | An engine row found is stored and has the id looked up; nothing is found exactly when no row has that id |
| EngineRepo.RowsOf | src/api/v1/engines/repositories.py:68-88 | One link row per model of a role, in order |
| EngineRepo.LoraRows | src/api/v1/engines/repositories.py:75-81 | One LORA link row per LORA, in order |
| EngineRepo.VaeRows | src/api/v1/engines/repositories.py:61-66 | A VAE link row exactly when the engine has a VAE |
| EngineRepo.EngineRowOf | src/api/v1/engines/repositories.py:37-53 | The stored engine row has the new id, the engine's name and every one of its settings (corrected, see Findings) |
| EngineRepo.EngineRowAsWritten | src/api/v1/engines/repositories.py:37-53 | As written the stored row keeps every setting except the scaling flag, which is null whatever the input |
| EngineRepo.AddLink | src/api/v1/engines/repositories.py:55-59 | One link row is appended under the next id, and no other table changes |
| EngineRepo.AddModelLinks | src/api/v1/engines/repositories.py:68-73 | One link row per model is appended, in order, under consecutive ids, and no other table changes |
| EngineRepo.AddLoraLinks | src/api/v1/engines/repositories.py:75-81 | One LORA link row with its weight per LORA is appended, in order, under consecutive ids, and no other table changes |
| EngineRepo.AddEngine | src/api/v1/engines/repositories.py:37-53 | The engine row is appended under the next id, and no other table changes |
| EngineRepo.AddListLinks | src/api/v1/engines/repositories.py:68-88 | The embedding, LORA and control-net link rows are appended in that order under consecutive ids |
| EngineRepo.Create | src/api/v1/engines/repositories.py:36-90 | The engine row is stored under a fresh id, followed by one link row for the checkpoint, the VAE when there is one, each embedding, each LORA with its weight and each control net, in that order; the engine is returned with its new id; the other tables are unchanged (corrected, see Findings) |
| EngineRepo.SerializeEngine | src/api/v1/engines/repositories.py:114-187 | The loop over the engine's link rows returns exactly the serialization reference definition: the grouped models, or "checkpoint-not-found" |
| EngineRepo.GetOne | src/api/v1/engines/repositories.py:99-108 | "engine-not-found" (404) exactly when no engine row has the id; otherwise the serialization of the row found |
| EngineRepo.Resolved | src/api/v1/engines/repositories.py:121-156 | A role never resolves to more models than there are link rows |
| EngineRepo.LastModel | src/api/v1/engines/repositories.py:123-141 | The last model found in a role, none exactly when none was found |
| EngineRepo.ResolvedAppend | src/api/v1/engines/repositories.py:121-156 | What two stretches of link rows resolve to in a role is what the first resolves to followed by what the second does |
| EngineRepo.StepByRole | src/api/v1/engines/repositories.py:122-156 | One link row adds its model to the list of its role, or replaces the checkpoint or the VAE, and touches no other role |
| EngineRepo.GroupByRole | src/api/v1/engines/repositories.py:114-157 | Serialization groups by role: each list holds the models found for its role in link order, and the checkpoint and the VAE are the last ones found |
| EngineRepo.GroupIsByRole | src/api/v1/engines/repositories.py:114-157 | The serialization loop over link rows gives the same grouping as the role-by-role reference definition, whatever the rows |
| EngineRepo.OtherRoles | src/api/v1/engines/repositories.py:122-156 | Link rows of other roles contribute nothing to a role |
| EngineRepo.EachHits | src/api/v1/engines/repositories.py:121-156 | Rows each resolving to one model resolve, together, to those models in order |
| EngineRepo.FindStored | src/api/v1/engines/repositories.py:124-126 | A stored model of a type is what the lookup by its id and that type finds, when ids are unique |
| EngineRepo.RowsOfResolve | src/api/v1/engines/repositories.py:68-88 | The link rows written for stored models of a role resolve back to exactly those models, in order |
| EngineRepo.LoraRowsResolve | src/api/v1/engines/repositories.py:75-81 | The LORA link rows resolve back to exactly the LORAs with their weights, in order |
| EngineRepo.LinkRowsParts | src/api/v1/engines/repositories.py:55-88 | The link rows written are the checkpoint, VAE, embedding, LORA and control-net rows, in that order |
| EngineRepo.OwnPartOnly | src/api/v1/engines/repositories.py:121-156 | Of the link rows written, only those of a role resolve under that role |
| EngineRepo.CheckpointOfLinkRows | src/api/v1/engines/repositories.py:123-128 | The link rows written give back the engine's checkpoint |
| EngineRepo.VaeOfLinkRows | src/api/v1/engines/repositories.py:136-141 | The link rows written give back the engine's VAE, or none when it has none |
| EngineRepo.LorasOfLinkRows | src/api/v1/engines/repositories.py:142-149 | The link rows written give back the engine's LORAs with their weights, in order |
| EngineRepo.EmbeddingsOfLinkRows | src/api/v1/engines/repositories.py:129-135 | The link rows written give back the engine's embeddings, in order |
| EngineRepo.ControlNetsOfLinkRows | src/api/v1/engines/repositories.py:150-156 | The link rows written give back the engine's control nets, in order |
| EngineRepo.GroupLinkRows | src/api/v1/engines/repositories.py:55-157 | Grouping the link rows that creation writes gives back all of the engine's models, each in its role |
| EngineRepo.CreateThenSerialize | src/api/v1/engines/repositories.py:36-187 | Round trip: reading back an engine just created gives the engine it was given, with its new id, when its models are stored with their roles' types |
| EngineRepo.ScalingFlagLostAsWritten | src/api/v1/engines/repositories.py:42 | As written an engine created with the scaling flag on reads back with it null, so the round trip fails |
| EngineRepo.Delete | src/api/v1/engines/repositories.py:17-31 | "engine-not-found" (404) and nothing removed for an unknown id; otherwise the engine row and every link row of that engine are removed, and nothing else |
| EngineRepo.LinkRows | src/api/v1/engines/repositories.py:55-88 | (no contract of its own) The link rows creation writes, in write order; stated by EngineRepo.LinkRowsLength, EngineRepo.LinkRowsOwned, EngineRepo.LinkRowsParts and EngineRepo.GroupLinkRows |
| EngineRepo.LinkRowsLength | src/api/v1/engines/repositories.py:55-88 | Creation writes one link row for the checkpoint, one for the VAE when there is one, and one per embedding, LORA and control net |
| EngineRepo.LinkRowsOwned | src/api/v1/engines/repositories.py:55-88 | Every link row creation writes carries the new engine's id |
| EngineRepo.GroupStep | src/api/v1/engines/repositories.py:122-156 | (no contract of its own) One pass of the serialization loop; stated by EngineRepo.StepByRole and EngineRepo.OtherRoles |
| EngineRepo.Group | src/api/v1/engines/repositories.py:114-157 | (no contract of its own) The serialization loop over link rows; stated by EngineRepo.GroupByRole and EngineRepo.GroupIsByRole |
| EngineRepo.Serialize | src/api/v1/engines/repositories.py:114-187 | Serialization fails only with "checkpoint-not-found"; an engine read back has the row's id, name and settings |
| EngineRepo.IsUsedByGenerator | src/api/v1/engines/repositories.py:33-34 | (no contract of its own) `Generator.exists(engine_id=id)`; the delete contract of EngineService.Delete is stated in its terms |
| EngineService.LoraIds | src/api/v1/engines/services.py:55-56 | The model ids of the requested LORAs, in order |
| EngineService.Missing | src/api/v1/engines/services.py:58-64 | The error for a missing model is on the field the id came from |
| EngineService.MissingIds | src/api/v1/engines/services.py:55-111 | At most one error per id, each on the field being checked |
| EngineService.Check | src/api/v1/engines/services.py:22-113 | Every error a field's check reports is on that field |
| EngineService.CheckedField | src/api/v1/engines/services.py:22-113 | The fields are checked in a fixed order, and the position of a field in that order is its rank |
| EngineService.OnField | src/api/v1/engines/services.py:22-113 | The errors on one field are among all the errors |
| EngineService.CheckIds | src/api/v1/engines/services.py:55-111 | The loop over a list of ids reports exactly the errors of the id-check reference definition |
| EngineService.ChecksNext | src/api/v1/engines/services.py:22-113 | Running one more check appends that check's errors to those reported so far |
| EngineService.Validate | src/api/v1/engines/services.py:22-113 | `_validate` reports exactly the validation reference definition's errors: each field's check in order, each appending its errors |
| EngineService.ValidationErrors | src/api/v1/engines/services.py:22-113 | (no contract of its own) Every error `_validate` reports; stated by EngineService.Validate, EngineService.ValidWhenNoErrors and EngineService.ErrorsInFieldOrder |
| EngineService.Messages | src/api/v1/engines/services.py:55-111 | One error message per id, in order |
| EngineService.MissingIdsAreTheMissing | src/api/v1/engines/services.py:55-111 | The id errors are exactly one message per id that is not stored with the expected type, in input order |
| EngineService.MessagesAppend | src/api/v1/engines/services.py:55-111 | The messages of two lists of ids are the messages of the first followed by those of the second |
| EngineService.NoMissingIds | src/api/v1/engines/services.py:55-111 | No id error exactly when every id is stored with the expected type |
| EngineService.OneFieldOnly | src/api/v1/engines/services.py:22-113 | Errors that are all on one field are all of that field's errors and none of another's |
| EngineService.RankedField | src/api/v1/engines/services.py:22-113 | Each checked field is the one checked at its rank |
| EngineService.OnFieldStep | src/api/v1/engines/services.py:22-113 | Appending one field's errors adds to that field's errors and to no other's |
| EngineService.OnFieldOfChecks | src/api/v1/engines/services.py:22-113 | Each field is checked once: among the first checks the errors on a field are that field's check if it is among them, and none otherwise |
| EngineService.OnFieldOfValidation | src/api/v1/engines/services.py:22-113 | The errors validation reports on a field are exactly those of that field's check |
| EngineService.NameError | src/api/v1/engines/services.py:24-30 | An empty name gives exactly the error "name can't be empty" on the name, and any other name none |
| EngineService.CheckpointIdError | src/api/v1/engines/services.py:32-41 | A checkpoint id that is not stored as a checkpoint gives exactly one error naming the id; a stored one gives none |
| EngineService.VaeError | src/api/v1/engines/services.py:43-53 | There is a VAE error exactly when the VAE id is truthy and not stored as a VAE, and it is the one message naming the id; a missing or zero id is never checked |
| EngineService.IdErrors | src/api/v1/engines/services.py:55-111 | The LORA, control-net and embedding errors are exactly one message per requested id not stored with that type, in input order |
| EngineService.ParamError | src/api/v1/engines/services.py:78-101 | With control nets requested each missing scale, guidance start or guidance end gives its own error; with none requested none of these errors occur |
| EngineService.PrefixInFieldOrder | src/api/v1/engines/services.py:22-113 | The first checks report in field order, only on the fields they check |
| EngineService.ErrorsInFieldOrder | src/api/v1/engines/services.py:22-113 | Errors come in the fixed field order: name, checkpoint, VAE, LORAs, control nets, the control parameters, embeddings |
| EngineService.NoErrorsInChecks | src/api/v1/engines/services.py:22-113 | The first checks report nothing exactly when each of them passes |
| EngineService.AcceptableIsEachCheck | src/api/v1/engines/services.py:22-113 | A request is acceptable exactly when each field's check passes |
| EngineService.ValidWhenNoErrors | src/api/v1/engines/services.py:22-113 | Validation reports nothing exactly when the request is acceptable: a non-empty name, every id stored with its role's type, and the control parameters present when control nets are requested |
| EngineService.FetchAll | src/api/v1/engines/services.py:129-137 | The fetch succeeds exactly when every id is found, and then returns one stored model per id, in order, with that id; otherwise "aimodel-not-found" |
| EngineService.FetchLoras | src/api/v1/engines/services.py:139-143 | The LORA fetch succeeds exactly when every LORA id is found, and pairs each fetched model with the request's weight |
| EngineService.Assemble | src/api/v1/engines/services.py:124-166 | The assembled engine has no id yet, the request's name and settings, the requested checkpoint, and a VAE exactly when the VAE id is truthy; a failing fetch gives "aimodel-not-found" |
| EngineService.FetchedAs | src/api/v1/engines/services.py:129-137 | Ids that all exist with a type are fetched as stored models of that type |
| EngineService.FetchedOneAs | src/api/v1/engines/services.py:124-127 | An id that exists with a type is fetched as a model of that type |
| EngineService.ValidatedAssembles | src/api/v1/engines/services.py:115-166 | After a validation without errors every fetch succeeds and each model fetched is stored with its role's type |
| EngineService.ValidatedFetches | src/api/v1/engines/services.py:115-166 | After a validation without errors the fetches of `create` cannot fail |
| EngineService.CreatedEngineReadsBack | src/api/v1/engines/services.py:115-168 | Creating an engine from a valid request and reading it back gives the assembled engine under its new id |
| EngineService.FetchModels | src/api/v1/engines/services.py:129-137 | The fetch loop returns exactly the fetch reference definition's models or its error |
| EngineService.FetchLoraModels | src/api/v1/engines/services.py:139-143 | The LORA fetch loop returns exactly the LORA fetch reference definition's result |
| EngineService.FetchEngine | src/api/v1/engines/services.py:124-166 | The fetches of `create`, in its order, return exactly the assembly reference definition's engine or its error |
| EngineService.StoreAssembled | src/api/v1/engines/services.py:124-168 | The engine the fetches assemble is stored with its link rows and returned under the next key; no other table changes |
| EngineService.Create | src/api/v1/engines/services.py:115-168 | A request with validation errors raises "incorrect-input" (400) carrying exactly those errors and writes nothing; otherwise the assembled engine is stored with its link rows and returned with its new id |
| EngineService.Delete | src/api/v1/engines/services.py:170-178 | "generator-is-using-engine" (400) with nothing deleted while a generator uses the engine; otherwise "engine-not-found" for an unknown id, or the engine and its link rows removed |
| AIModelRepo.GetOrNone | src/api/v1/aimodels/repositories.py:20 | A model found is stored and has the id looked up; nothing is found exactly when no stored model has that id |
| AIModelRepo.GetOne | src/api/v1/aimodels/repositories.py:34-43 | "aimodel-not-found" (404) exactly when no stored model has the id; otherwise a stored model with that id |
| AIModelRepo.GetOneFinds | src/api/v1/aimodels/repositories.py:34-43 | With unique ids a stored model is exactly what looking up its id finds |
| AIModelRepo.Create | src/api/v1/aimodels/repositories.py:15-17 | The model is appended under the next id and returned with it, and no other table changes |
| AIModelRepo.Delete | src/api/v1/aimodels/repositories.py:19-28 | "aimodel-not-found" (404) and nothing removed for an unknown id; otherwise the model's row is removed and no other table changes |
| AIModelService.Schema | src/api/v1/aimodels/services.py:16-28 | The stored schema is READY whatever the request, has no id and no error yet, and carries every field of the request unchanged, the control-net type included (corrected, see Findings) |
| AIModelService.Create | src/api/v1/aimodels/services.py:16-30 | The model built from the request is stored under the next id and returned with it, and no other table changes (corrected, see Findings) |
| AIModelService.CreatedReadsBack | src/api/v1/aimodels/services.py:16-30 | A model just registered under a fresh id is what looking up that id finds, READY and with the requested fields (corrected, see Findings) |
| AIModelService.ControlNetTypeLostAsWritten | src/api/v1/aimodels/services.py:17-28 | As written a control-net model registered with a type is stored without one, so detection on a reference image with it raises "no-contron-net-type-in-model", which the intended schema avoids |
| AIModelService.SchemaAsWritten | src/api/v1/aimodels/services.py:17-28 | As written the stored schema is READY and differs from the intended one only in having no control-net type |
| AIModelService.Delete | src/api/v1/aimodels/services.py:32-39 | "engine-is-using-aimodel" (400) with nothing deleted while an engine links the model; otherwise "aimodel-not-found" for an unknown id, or the model's row removed |
| AIModelService.DeletedIsGone | src/api/v1/aimodels/services.py:32-39 | After the delete no stored model has the id |
| GeneratorService.Validate | src/api/v1/generators/services.py:18-32 | Exactly one "engine_id" error, naming the id, when the engine is not stored, and none otherwise |
| GeneratorService.GetEngine | src/api/v1/generators/services.py:39 | An engine read back has the id asked for |
| GeneratorService.Insert | src/api/v1/generators/services.py:43 | The generator is stored as a row under the next id with its name, engine, GPU and status, and returned with that id |
| GeneratorService.Create | src/api/v1/generators/services.py:34-44 | The error is WRONG_INPUT exactly when the engine is not stored, and then carries the validation errors; otherwise a failing engine read is passed on, or a STOPPED generator with the requested name, GPU and engine is stored under the next id and returned (corrected, see Findings) |
| GeneratorService.SetStatus | src/api/v1/generators/services.py:50 | The status write keeps the number of generators |
| GeneratorService.SetStatusOnly | src/api/v1/generators/services.py:50 | The generator with the id gets the new status, and nothing else of any generator changes |
| GeneratorService.Request | src/api/v1/generators/services.py:46-56 | GENERATOR_NOT_FOUND_ERROR exactly when no generator has the id; otherwise the status write (corrected, see Findings) |
| GeneratorService.Start | src/api/v1/generators/services.py:46-50 | GENERATOR_NOT_FOUND_ERROR exactly when no generator has the id; otherwise the generator becomes STARTING and nothing else changes (corrected, see Findings) |
| GeneratorService.Stop | src/api/v1/generators/services.py:52-56 | GENERATOR_NOT_FOUND_ERROR exactly when no generator has the id; otherwise the generator becomes STOPPING and nothing else changes (corrected, see Findings) |
| GeneratorService.StartStopFailAsWritten | src/api/v1/generators/services.py:46-56 | As written a stored generator can never be started or stopped, because the existence check raises, where the intended service succeeds |
| GeneratorService.GpuLostAsWritten | src/api/v1/generators/services.py:40-42 | As written a request for a GPU other than 0 is stored with GPU 0, where the intended service keeps the requested GPU |
| GeneratorService.CreateAsWritten | src/api/v1/generators/services.py:40-42 | As written creation fails exactly when the intended one does, and a stored generator and its new row have GPU 0 whatever was requested |
| GeneratorService.StartAsWritten | src/api/v1/generators/services.py:46-50 | As written `start` always raises, and not with the not-found error the intended service gives for an unknown id |
| GeneratorService.StopAsWritten | src/api/v1/generators/services.py:52-56 | As written `stop` always raises, and not with the not-found error the intended service gives for an unknown id |
| GeneratorService.CreatedCanStart | src/api/v1/generators/services.py:34-50 | A generator just created can be started: the new row becomes STARTING and the earlier rows are untouched (corrected, see Findings) |
| JobService.MissingGenerator | src/api/v1/jobs/services.py:41-46 | The error for a missing generator is on "generator_id" |
| JobService.Validate | src/api/v1/jobs/services.py:37-48 | Exactly one "generator_id" error, naming the id, when the generator is not stored, and none otherwise |
| JobService.NewJobSignals.constructor | src/api/v1/jobs/services.py:25-35 | No signal has been sent yet |
| JobService.NewJobSignals.Send | src/api/v1/jobs/services.py:53 | One new-job signal carrying the id is added after those sent before |
| JobService.CreateJob | src/api/v1/jobs/services.py:50-54 | The job is stored with its images, control images and files, without validation, and exactly one new-job signal is sent, carrying the id of the job returned; reading the job back gives exactly what is returned (corrected, see Findings) |
| JobService.ImageFiles | src/api/v1/jobs/services.py:73-78 | The files of one image are those of its control images, in order, then its own |
| JobService.JobFilesMembers | src/api/v1/jobs/services.py:72-78 | A path is among the files removed exactly when it is the file of one of the job's images or of one of their control images |
| JobService.RemoveJobFiles | src/api/v1/jobs/services.py:71-78 | Exactly the files of the job's images and control images are removed from disk, and every other file stays |
| JobService.DeleteJob | src/api/v1/jobs/services.py:56-80 | "job-not-found" (400) for an absent job and "job-gets-processed" (400) for a job being processed, with no row or file removed; otherwise every file of the job's images and control images is removed and the job is deleted with its image and control-image rows |
| JobService.CreatedFilesRemoved | src/api/v1/jobs/services.py:50-80 | Every control-image file written when a job is created is among the files removed when that job is deleted |
| JobRepo.PathJoinParts | src/api/v1/jobs/repositories.py:126-128 | Joining a folder and a relative file name gives a path that starts with the folder and ends with the name |
| JobRepo.PathJoin | src/api/v1/jobs/repositories.py:126-128 | (no contract of its own) `os.path.join` on POSIX; stated by JobRepo.PathJoinEndsWithName and JobRepo.PathJoinParts |
| JobRepo.PathJoinEndsWithName | src/api/v1/jobs/repositories.py:126-128 | Whatever the folder, the file name ends the joined path, and an absolute name is the whole path |
| JobRepo.IfTruthyInt | src/api/v1/jobs/repositories.py:132-145 | An optional integer column is written exactly when the requested value is truthy (present and non-zero), and then with that value |
| JobRepo.IfTruthyReal | src/api/v1/jobs/repositories.py:135-151 | An optional float column is written exactly when the requested value is truthy (present and non-zero), and then with that value |
| JobRepo.IpAdapterConfigLostAsWritten | src/api/v1/jobs/repositories.py:119 | As written a job requested with an IP-adapter configuration is stored without it, unlike the intended row |
| JobRepo.JobRowOf | src/api/v1/jobs/repositories.py:119 | (no contract of its own) The job row creation should store (corrected, see Findings); stated by JobRepo.CreateReadsBack |
| JobRepo.JobRowAsWritten | src/api/v1/jobs/repositories.py:119 | (no contract of its own) The job row the code as written stores; stated by JobRepo.IpAdapterConfigLostAsWritten |
| JobRepo.ImageRowOf | src/api/v1/jobs/repositories.py:121-153 | (no contract of its own) The image row of one requested image; stated by JobRepo.ImageRowFile and JobRepo.ReturnedImage |
| JobRepo.ImageRowFile | src/api/v1/jobs/repositories.py:122-128 | The image file is named by its uuid and the file type, which end the stored path, and a new image is not ready |
| JobRepo.ControlRowOf | src/api/v1/jobs/repositories.py:156-171 | A control row gets the next id and names the image and the job it was created for |
| JobRepo.ControlRows | src/api/v1/jobs/repositories.py:156-172 | One control row per requested control image of the image, in request order |
| JobRepo.FilePaths | src/api/v1/jobs/repositories.py:159-168 | One file path per control row, in order |
| JobRepo.PathSet | src/api/v1/jobs/repositories.py:159-161 | A path is in the set of written files exactly when it is one of the paths |
| JobRepo.CannyThresholdsLostAsWritten | src/api/v1/images/repositories.py:52-65 | As written a stored canny threshold never reaches the control-image schema, which the intended serialisation keeps |
| JobRepo.SerializeControl | src/api/v1/images/repositories.py:52-65 | (no contract of its own) One control row as the schema should carry it, thresholds included (corrected, see Findings) |
| JobRepo.SerializeControlAsWritten | src/api/v1/images/repositories.py:52-65 | (no contract of its own) One control row as the code as written serializes it; stated by JobRepo.CannyThresholdsLostAsWritten |
| JobRepo.SerializeImage | src/api/v1/images/repositories.py:33-68 | The image schema has the row's id and file and one control image per control row, in order, each with that row's file |
| JobRepo.MakeImage | src/api/v1/jobs/repositories.py:121-172 | A requested image leads to one control row per requested control image |
| JobRepo.Offset | src/api/v1/jobs/repositories.py:119-171 | Every image of the job is keyed after the job |
| JobRepo.ImageRows | src/api/v1/jobs/repositories.py:121-153 | One image row per requested image, in request order |
| JobRepo.ImageSchemas | src/api/v1/jobs/repositories.py:120-176 | One returned image schema per requested image |
| JobRepo.OffsetGrows | src/api/v1/jobs/repositories.py:121-171 | A later image is keyed above an earlier image and all of its control rows |
| JobRepo.ControlOfImage | src/api/v1/jobs/repositories.py:163-171 | A control row made for an image refers to that image and the new job, and is keyed after the image and before the next one |
| JobRepo.ImageKeys | src/api/v1/jobs/repositories.py:119-153 | The images are keyed after the job in strictly increasing order, below the next free key, and each belongs to the new job and the requested generator |
| JobRepo.ControlKeys | src/api/v1/jobs/repositories.py:155-172 | Every control row stored belongs to the new job and to one of its new images, under a key between the job's and the next free key |
| JobRepo.UpToNext | src/api/v1/jobs/repositories.py:121-176 | Handling the next image extends the image rows, the returned schemas, the control rows and the written files by that image's own |
| JobRepo.ReturnedImage | src/api/v1/jobs/repositories.py:121-176 | The schema returned for an image carries the requested prompts, file type and truthy optional values, and per control image in order its scale, its thresholds and the file written for it (corrected, see Findings) |
| JobRepo.InsertJob | src/api/v1/jobs/repositories.py:119 | The job row is appended under the next key and no other table changes |
| JobRepo.InsertImage | src/api/v1/jobs/repositories.py:153 | The image row is appended under the next key and no other table changes |
| JobRepo.InsertControlImage | src/api/v1/jobs/repositories.py:163-171 | The control row is appended under the next key and no other table changes |
| JobRepo.CreateControls | src/api/v1/jobs/repositories.py:155-172 | Each requested control image of an image gets its file written and its row stored, in order under consecutive keys, and nothing else changes |
| JobRepo.CreateControl | src/api/v1/jobs/repositories.py:157-172 | One control image: its "pose-" file under the images folder is written and exactly its row is stored under the next key, for the image and the job |
| JobRepo.CreateImage | src/api/v1/jobs/repositories.py:121-176 | One requested image: its row, then its control rows and files, and the schema of the rows just stored is returned (corrected, see Findings) |
| JobRepo.CreateImages | src/api/v1/jobs/repositories.py:120-176 | All requested images in order, each followed by its control rows and files; the schemas returned are those of the rows stored (corrected, see Findings) |
| JobRepo.Create | src/api/v1/jobs/repositories.py:118-183 | The job row, its image rows and its control rows are appended and the control files written; the job returned is WAITING, for the requested generator, and is exactly what reading its id back gives (corrected, see Findings) |
| JobRepo.JobImages | src/api/v1/jobs/repositories.py:66-71 | One schema per image row of the job |
| JobRepo.FindJob | src/api/v1/jobs/repositories.py:62 | A job found is stored and has the id looked up; nothing is found exactly when no stored job has that id |
| JobRepo.IpAdapterNeverReadAsWritten | src/api/v1/jobs/repositories.py:73-78 | As written no job read back carries an IP-adapter configuration, whether or not it was stored; the intended read gives back the requested one |
| JobRepo.JobSchemaOf | src/api/v1/jobs/repositories.py:73-78 | (no contract of its own) The job schema a read should build (corrected, see Findings); stated by JobRepo.CreateReadsBack |
| JobRepo.JobSchemaAsWritten | src/api/v1/jobs/repositories.py:73-78 | (no contract of its own) The job schema the code as written builds; stated by JobRepo.IpAdapterNeverReadAsWritten |
| JobRepo.ReadJob | src/api/v1/jobs/repositories.py:61-79 | Nothing exactly when no job has the id; otherwise the job with that id and the schemas of its images (corrected, see Findings) |
| JobRepo.FindAppended | src/api/v1/jobs/repositories.py:62 | A row appended under a fresh id is what looking up that id finds |
| JobRepo.ImagesOfAppend | src/api/v1/jobs/repositories.py:66 | The images of a job in a table split in two are those of the first part, then those of the second |
| JobRepo.ControlsOfAppend | src/api/v1/jobs/repositories.py:69 | The control rows of an image in a table split in two are those of the first part, then those of the second |
| JobRepo.FilterByImage | src/api/v1/jobs/repositories.py:69 | Among control rows of one image, looking up that image finds them all and looking up another finds none |
| JobRepo.MadeControlsOfImage | src/api/v1/jobs/repositories.py:163-164 | Every control row made for an image refers to that image |
| JobRepo.ControlsOfCreated | src/api/v1/jobs/repositories.py:155-172 | Among the control rows stored for a job, those of one image are exactly the ones made for it, in order |
| JobRepo.ControlsOfNewImage | src/api/v1/jobs/repositories.py:69 | Right after the job is stored, looking up a new image's control rows finds exactly those made for it |
| JobRepo.CreateReadsBack | src/api/v1/jobs/repositories.py:61-183 | Round trip: right after the job is stored, reading its id back gives exactly the job returned, with every image and control image (corrected, see Findings) |
| JobRepo.SerializeJobImages | src/api/v1/jobs/repositories.py:66-71 | The schemas of the job's images, read from the tables |
| JobRepo.GetOrNone | src/api/v1/jobs/repositories.py:61-79 | The stored job with its images, or nothing when no job has the id (corrected, see Findings) |
| JobRepo.GetOne | src/api/v1/jobs/repositories.py:81-90 | "job-is-not-found" (404) exactly when no job has the id; otherwise the job read back (corrected, see Findings) |
| JobRepo.SetStatus | src/api/v1/jobs/repositories.py:101-102 | Setting the status keeps the number of jobs |
| JobRepo.FindAfterSetStatus | src/api/v1/jobs/repositories.py:93-102 | After the status write, looking up that job finds it with the new status and every other column unchanged, and every other lookup finds what it found before |
| JobRepo.UpdateSetsOnlyStatus | src/api/v1/jobs/repositories.py:92-116 | The job read back after the update is the one read before with the new status, and every other job reads back as before (corrected, see Findings) |
| JobRepo.UpdateStatus | src/api/v1/jobs/repositories.py:92-116 | "job-is-not-found" (404) and no write for an absent id; otherwise only the job's status changes and the job returned is the one read back, with the new status (corrected, see Findings) |
| JobRepo.DeleteJobRows | src/api/v1/jobs/repositories.py:194-202 | The job's row, its image rows and its control rows are removed, and nothing else changes |
| JobRepo.Delete | src/api/v1/jobs/repositories.py:185-202 | "job-not-found" (404) and nothing removed for an absent id; otherwise the job goes with every image and control image of it |
| JobRepo.DeletedIsGone | src/api/v1/jobs/repositories.py:185-202 | After the delete the job no longer reads back |
| JobRepo.JobIdsOfMeans | src/api/v1/jobs/repositories.py:205 | An id is among a generator's job ids exactly when one of that generator's jobs has it |
| JobRepo.DeleteNextJob | src/api/v1/jobs/repositories.py:206-215 | One turn of the delete loop: the rows of one more job, its images and its control images go, and no other table changes |
| JobRepo.DeleteByGenerator | src/api/v1/jobs/repositories.py:204-215 | Every job of the generator goes, each with its images and control images; the other jobs and their rows stay |
| Store.FileSystem.Write | src/api/v1/jobs/repositories.py:160-161 | The file written exists afterwards, next to every file that existed before |
| Store.FileSystem.RemoveIfExists | src/api/v1/jobs/services.py:74-78 | The file is gone afterwards, whether or not it existed, and every other file stays |
| Store.DeleteEach | src/api/v1/engines/repositories.py:28-31 | Deleting the found rows one by one, by id, leaves exactly the rows whose ids were not found, in order |
| Store.DeleteWhere | src/api/v1/jobs/repositories.py:196-202 | Filtering on a key and deleting each row found removes exactly the rows with that key, keeps the rest in order, and keeps the ids unique and below the next key |
| Base.OrInt | src/api/v1/generators/process/pipe.py:481-489 | `a or b` on an integer: the requested value when it is truthy, the fallback otherwise |
| Base.OrReal | src/api/v1/generators/process/pipe.py:481-489 | `a or b` on a float: the requested value when it is truthy, the fallback otherwise |
| Base.OrOptReal | src/api/v1/generators/process/pipe.py:484-487 | `a or b` on two optional floats: the first when it is truthy, the second otherwise |
| Base.NatToStringParses | src/api/v1/engines/services.py:39 | Reading back the decimal text `str()` writes for a natural number gives that number |
| Base.IntToStringParses | src/api/v1/engines/services.py:39 | Reading back the text `str()` writes for an integer, sign included, gives that integer |
| Base.IntToStringInjective | src/api/v1/engines/services.py:39 | Distinct ids are written as distinct texts, so an error message names exactly one id |
| Manager.ProcessManager.constructor | src/api/v1/generators/manager.py:39-46 | A new manager runs no generator process, has written no status and spawned nothing |

## Left out

- Model loading and inference are opaque calls into diffusers, compel,
  sd_embed and torch, working on float tensors. This covers
  `create_controlnets`, the weights loaded by `create_vae`, `load_loras`,
  `load_sdxl_embedding`, `set_scheduler`, `enable_long_prompt`, the
  `pipe(**kwargs)` call and image saving. A load is recorded as the
  arguments it is given. The tokenizer is a function from text to its
  token count. `Pipe.RunPipe` takes the prompt embeddings as a value.
- The pose, depth and canny detectors, and the mediapipe drawing, are
  floating-point image processing. A detection is recorded as the detector
  kind, the reference image and the file it was saved to.
- The manager's concurrency is left out: processes, threads, the lock,
  `run_in_executor` and the inter-process queues. Registry updates and
  event dispatch are sequential steps.
- Manager spawning: a spawn is recorded as the arguments passed to it, and
  starting the process is assumed to succeed.
- Manager.ProcessManager.StartGenerator: the arguments are passed to a
  worker entry point that also takes a GPU id. The failure this mismatch
  causes inside the child process is not modelled.
- The worker's command queue is a finite sequence. Where the real process
  would block on an empty queue, the model stops with the outcome `Blocked`.
- Worker: `assert job.id` and `assert img.id` are modelled as "the id is
  present". Python truthiness would also refuse the id 0, but keys start
  at 1.
- The JSON text layer (`json.dumps` and `json.loads`) is left out; events
  are encoded to a JSON value tree.
- The uuid4 file names come in as the `JobRepo.Names` parameter.
- Base64 payloads and file contents are left out. The file system records
  which paths exist.
- Listing queries are not modelled:
  - `get_all` and `filter` of the job repository
    (src/api/v1/jobs/repositories.py:21-59);
  - `get_all` of the engine repository (src/api/v1/engines/repositories.py:92-97);
  - `get_all` and `get_one_or_none` of the model repository.
- `start` and `stop` of the generator service return the stored
  generator's schema. The model returns the generator rows after the
  status write.
- The tags WRONG_INPUT and GENERATOR_NOT_FOUND_ERROR are given the values
  "wrong-input" and "generator-not-found-error". src/core/tags/user_errors.py
  is not part of this model.
- The string values of the enumerations are assumed lower snake case.
  src/core/enums.py is not part of this model.
- The TSTError payload of an ERROR event is taken to be its tag and its
  message.
- The schema built from a generator request is taken to have the request's
  fields.
- A new image row is taken to start with `ready` false.
- `delete_job` reads the job's images through `image_repo.filter`, which
  the image repository shown does not define. The model reads them with
  the job's own lookup.
- Websockets, HTTP endpoints, dependency injection, configuration, GPU
  listing and the ORM declarations are left out.
- EventCodec.DecodePayload: the decoded records are typed (`int` and
  `string` fields), so a field of another JSON type is refused with
  `FieldType`. Python's dataclasses do not check types and would build the
  record anyway: a `job_id` of "x" decodes there and fails here.
  Well-typed values decode the same way in both.
- EventCodec.Decode: for the same reason a `generator_name` that is not a
  string, or a `generator_id` that is not an integer, is refused with
  `FieldType`, where Python builds the event (a `generator_name` of 5
  decodes there).
- JobService.CreateJob: `create_job` calls `send_signal_new_job`
  (src/api/v1/jobs/services.py:53), which the process manager
  (src/api/v1/generators/manager.py:32-109) does not define. As written
  the call raises AttributeError after the job rows are stored. The model
  sends the signal through `JobService.NewJobSignals` instead.
- Worker: the worker calls `run_pipe` with four arguments, the IP-adapter
  image included (src/api/v1/generators/process/generator.py:148), but
  `run_pipe` takes three (src/api/v1/generators/process/pipe.py:480). The
  worker model records the adapter image with each render, and
  `Pipe.RunPipe` models the three-argument function.
- Worker: `load_ip_adapter`, `set_ip_adapter_scale` and
  `unload_ip_adapter` are imported from the pipeline module
  (src/api/v1/generators/process/generator.py:20-30), which does not
  define them. The model records each call as an activity of the worker.
- Manager.ProcessManager.InfiniteLoop: the loop matches on `res.result`
  against `GeneratorResultType` (src/api/v1/generators/manager.py:51-59),
  but the events on the result queue carry their kind in `event`, as a
  `GeneratorEventType`. The model dispatches on the event's kind.
- JobRepo.Offset, JobRepo.OffsetGrows, JobRepo.ImageKeys and
  JobRepo.ControlOfImage: one counter, `Database.nextId`, hands out the
  keys of every table, where the database gives each table its own
  autoincrement. These members state where the keys of a new job's rows
  fall under that shared counter. The relative order of a job's rows, and
  the links between them, do not depend on this.
- Manager.ProcessManager.UpdateStatus: `update_status` serializes the
  generator after the save (src/api/v1/generators/repositories.py:49-50).
  That serialization can raise "engine-is-missing" after the status has
  been written. The model returns once the status is written and leaves
  out this error.
- GeneratorService.SetStatus: the same status write, through the service's
  `start` and `stop`, also leaves out the "engine-is-missing" error that
  serializing the generator after the save can raise.

## Findings

| source | as written | input that shows it | evidently intended | confidence | as-written member | corrected member |
|---|---|---|---|---|---|---|
| src/api/v1/engines/repositories.py:42 | The engine row is created with the keyword `scaling_factor_enable`, but the column is `scaling_factor_enabled` (src/db/models/engine.py:23), so the flag is not stored | An engine created with the scaling flag on | The flag is stored and read back | not executed | EngineRepo.ScalingFlagLostAsWritten | EngineRepo.CreateThenSerialize |
| src/api/v1/images/repositories.py:60-64 | The control-image schema is built without the canny thresholds stored in the row | A control image with a canny low threshold of 100 | The thresholds are read back | not executed | JobRepo.CannyThresholdsLostAsWritten | JobRepo.SerializeControl |
| src/api/v1/jobs/repositories.py:119 | The job row is created with only the generator id, and no read of a job passes on `ip_adapter_config` (178-183, 73-78) | A job requested with an IP-adapter configuration | The configuration is stored and read back with the job | not executed | JobRepo.IpAdapterNeverReadAsWritten | JobRepo.CreateReadsBack |
| src/api/v1/aimodels/services.py:17-28 | The stored schema is built without the request's `control_net_type` | A ControlNet model registered with type canny | The type is stored, so detection can use it | not executed | AIModelService.ControlNetTypeLostAsWritten | AIModelService.Schema |
| src/api/v1/generators/services.py:47 | `exists(id)` passes the id positionally, and Tortoise takes positional filter arguments only as `Q` expressions, so the call raises | `start` or `stop` of any stored generator | The generator with that id is looked up | not executed | GeneratorService.StartStopFailAsWritten | GeneratorService.Start |
| src/api/v1/generators/services.py:40-42 | The generator schema is built without the requested `gpu_id`, so the default 0 is stored | A generator requested on GPU 1 | The requested GPU is stored | not executed | GeneratorService.GpuLostAsWritten | GeneratorService.Create |
