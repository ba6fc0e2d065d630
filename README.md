# osc_extraction_utils: router and project paths, in Dafny

This project models two parts of `osc_extraction_utils`, the utilities that
drive the OSC PDF-extraction pipeline.

- **The router** (`osc_extraction_utils/router.py`) drives one training run.
  1. It builds the addresses of the extraction server and the inference server from the settings.
  2. It checks that the extraction server is live.
  3. It builds the request payload.
  4. It sends "extract" and "curate" to the extraction server.
  5. It checks that the inference server is live.
  6. Depending on the settings, it asks for relevance training, and for KPI training with the text_3434 merge in between.

  Every non-200 answer clears a success flag, and that flag is never set again.
  Nothing short-circuits: a dead server does not stop the later requests.
- **The project paths** (`osc_extraction_utils/paths.py`) are an object holding:
  - the root folder of a project;
  - the NLP, model and data folders derived from the root;
  - thirteen path fields. Eleven are data fields, each DATA / project name / declared default. The two saved-models fields are each MODEL / project name / declared default / output model name from the settings.

  Each setter recomputes some of these and leaves the rest as they were.

Both are modelled as Dafny classes whose methods change their fields in the
same order as the Python methods.

- HTTP is a parameter `http: string -> int` that maps each URL to the status it answers.
- The router's class has two ghost fields:
  - `trace` records every request and the merge call, in order;
  - `console` records every status line it prints.
- The outcome of the text_3434 merge is a parameter: the merge returns true, returns false, or raises.
- The path fields are a sequence indexed like the declaration list `Fields`.
- A path is a sequence of segments.

Files:
- `router.dfy`: module `Router`.
- `paths.dfy`: module `Paths`.
- `settings.dfy`: the parts of `MainSettings` the router and paths read, and a settings dump as a map.
- `decimal.dfy`: decimal formatting of a port number.
- `wrappers.dfy`: `Option` and `Result`.

## Model

| member | source | states |
|---|---|---|
| Router.Router.constructor | osc_extraction_utils/router.py:12-19 | a new router has empty server addresses, an empty payload, the success flag true, and has made no request and printed nothing |
| Router.Router.SetExtractionServerString | osc_extraction_utils/router.py:40-43 | the extraction address becomes `http://<ext_ip>:<ext_port>`; nothing else changes |
| Router.Router.SetInferenceServerString | osc_extraction_utils/router.py:45-48 | the inference address becomes `http://<infer_ip>:<infer_port>`; nothing else changes |
| Router.AddressRoundTrip | osc_extraction_utils/router.py:40-48 | a server address determines the host and port it was built from: splitting at the last ':' gives them back |
| Router.Router.SendPayloadToServerAddressWithNode | osc_extraction_utils/router.py:50-54 | one GET of `<address>/<node>` carrying the current payload is recorded; the flag becomes false when the answer is not 200 and is otherwise unchanged |
| Router.Router.CheckExtractionServerIsLive | osc_extraction_utils/router.py:56-62 | one GET of `<extraction>/liveness`; on 200 the "up" line is printed and the flag is kept; otherwise the "not responding" line is printed and the flag is cleared |
| Router.Router.DefinePayload | osc_extraction_utils/router.py:64-67 | the payload becomes `{"payload": json(...)}` of the project name and mode "train", updated with the settings dump |
| Router.PayloadContents | osc_extraction_utils/router.py:64-67 | the payload has the single key "payload"; the encoded map has the keys project_name, mode and those of the dump; dump entries override the first two |
| Router.PayloadModeIsTrain | osc_extraction_utils/router.py:64-67 | the encoded map always holds mode "train" and the configured project name |
| Router.Router.CheckInferenceServerIsLive | osc_extraction_utils/router.py:69-75 | the same as the extraction check, for `<inference>/liveness` and the inference lines |
| Router.Router.CheckForTrainRelevanceTrainingAndSendRequest | osc_extraction_utils/router.py:77-85 | "Relevance training will be started." is always printed; with the flag set, exactly one "train_relevance" request goes to the inference server; otherwise the "no relevance training" line is printed and the success flag is unchanged |
| Router.Router.CheckForKpiTrainingAndSendRequest | osc_extraction_utils/router.py:87-97 | with the flag set: "infer_relevance", then the merge, then the "next" line, then "train_kpi", all to the inference server; the flag then reflects only the two request statuses. Otherwise: only the "no kpi training" line |
| Router.Router.CheckForGenerateText3434 | osc_extraction_utils/router.py:99-114 | the merge is called with the project name and the S3 flag; one of three lines is printed, by outcome; the success flag is not in its frame, so a failed or raising merge never fails the run |
| Router.Router.RunRouter | osc_extraction_utils/router.py:25-38 | the addresses and payload are set; the trace is extended by exactly the run's call list; the flag becomes the fold of every request status over that list; the printed lines are those of the run |
| Router.AccumulateAllSucceed | osc_extraction_utils/router.py:50-54 | folding statuses over a call list gives true iff the flag started true and every request in the list answered 200 |
| Router.AccumulateAppend | osc_extraction_utils/router.py:25-38 | folding over two call lists in sequence is folding over their concatenation |
| Router.AccumulateNeverRestores | osc_extraction_utils/router.py:53-54 | once false, the flag stays false whatever later requests answer |
| Router.AccumulateRun | osc_extraction_utils/router.py:25-38 | the flag after a run in closed form: the start value, the four fixed statuses, and the statuses of the training requests whose flags are set |
| Router.RunSucceedsIff | osc_extraction_utils/router.py:25-38 | from a fresh router, a run succeeds iff every request it issued answered 200; the merge is not among them |
| Router.RunPrefix | osc_extraction_utils/router.py:25-35 | every run starts with extraction liveness, extract, curate, then inference liveness; every action request carries the payload built from the settings |
| Router.RelevanceBranch | osc_extraction_utils/router.py:77-80 | a run sends "train_relevance" exactly once if relevance training is on and never otherwise, and always to the inference server |
| Router.KpiBranch | osc_extraction_utils/router.py:87-92 | with KPI training on, a run ends with infer_relevance, merge, train_kpi in that order, and each of the two nodes is sent once; with it off, neither node is sent and there is no merge |
| Router.NoTrainingRunSucceeds | osc_extraction_utils/tests/test_run_router.py:14-54 | with both training flags off and the four fixed requests answering 200, a run makes four requests and succeeds; it prints the two "up" lines, the relevance start line and both "no training" lines |
| Router.ExtractionDownDoesNotShortCircuit | osc_extraction_utils/router.py:25-38 | a dead extraction server fails the run, yet "extract" and "curate" are still sent and the failure line is printed first |
| Decimal.ParseFormat | osc_extraction_utils/router.py:40-48 | the decimal rendering of a port reads back as the same number |
| Paths.ProjectPaths.constructor | osc_extraction_utils/paths.py:47-58 | the name, settings and root are stored. The project data and model folders are "data"/name and "models"/name, built from the class-level defaults. The fields are both updates run against those defaults. Only afterwards do NLP, MODEL and DATA follow the root |
| Paths.ConstructionUsesClassDefaults | osc_extraction_utils/paths.py:53-58 | just after construction, the fields derive from the class-level "data" and "models". For any non-empty root, no data field matches the DATA, and neither saved-models field matches the MODEL, that the constructor leaves behind |
| Paths.ProjectPaths.SetStringProjectName | osc_extraction_utils/paths.py:65-72 | the name is stored; both field families are rebuilt for it, so every field is derived from the current DATA, MODEL, name and settings; the root folders are untouched |
| Paths.ProjectPaths.SetMainSettings | osc_extraction_utils/paths.py:86-89 | the settings are stored; only the two saved-models fields change, and every data field keeps its value |
| Paths.ProjectPaths.SetPathFolderRoot | osc_extraction_utils/paths.py:95-101 | the root is stored and NLP = root, MODEL = root/models, DATA = root/data; no path field, name or setting changes |
| Paths.ProjectPaths.UpdateAllPathsDependingOnPathProjectDataFolder | osc_extraction_utils/paths.py:119-128 | every field whose name lacks "saved_models" becomes DATA / name / its declared default; the others keep their values |
| Paths.ProjectPaths.UpdateAllRootRelatedPaths | osc_extraction_utils/paths.py:130-133 | NLP, MODEL and DATA become root, root/models, root/data |
| Paths.ProjectPaths.UpdateAllPathsDependingOnPathProjectModelFolder | osc_extraction_utils/paths.py:139-159 | the relevance and inference saved-models fields become MODEL / name / default / the relevance and KPI output model names, pairwise; every other field keeps its value |
| Paths.DataFieldsAreAllButSavedModels | osc_extraction_utils/paths.py:31-45 | among the thirteen declared fields, exactly the two saved-models fields have "saved_models" in their names |
| Paths.DataUpdateDerives | osc_extraction_utils/paths.py:119-128 | after the data update every data field is derived from DATA and the name, and both saved-models fields are unchanged |
| Paths.ModelUpdateDerives | osc_extraction_utils/paths.py:139-159 | after the model update both saved-models fields are derived from MODEL, the name and the settings, and every data field is unchanged |
| Paths.DataUpdateIgnoresCurrentValues | osc_extraction_utils/paths.py:124-128 | the data update rebuilds from the declared defaults: two field lists with the same saved-models fields give the same result |
| Paths.DataUpdateIdempotent | osc_extraction_utils/paths.py:119-128 | running the data update twice is the same as running it once |
| Paths.ModelUpdateIdempotent | osc_extraction_utils/paths.py:139-159 | running the model update twice is the same as running it once |
| Paths.UpdatesDeriveAllFields | osc_extraction_utils/paths.py:65-72 | the data update followed by the model update leaves every field derived from DATA, MODEL, the name and the settings |
| Paths.DerivedFieldsShape | osc_extraction_utils/tests/test_paths.py:146-182 | for derived fields: every data field lies under DATA/name; each saved-models field lies under MODEL/name and ends with its output model name |
| Paths.GetProjectSettings | osc_extraction_utils/paths.py:163-169 | returns the registered instance, and raises TypeError exactly when none is registered |

## Left out

- HTTP transport: a request is its URL and its status code.
  - Connection errors and other exceptions raised by the HTTP library are not modelled.
  - Printing `response.text` is not modelled.
- The router's printed lines are constants of a `Message` datatype, not strings.
  - For a raising merge, the exception text and the traceback are folded into the one `TextError` line.
- `json.dumps` is modelled as an injective wrapper around the map it encodes.
- `model_dump()` is reduced to the fields of the general and training sections that the router and paths read. `settings.py` is not part of this model.
- The merge: only its arguments (project name and S3 flag) and its outcome are modelled.
  - The S3 settings and the project paths it also receives are not recorded in the call.
  - Its effects on files and buckets are not modelled.
- Router.Router.RunRouter: one merge outcome is fixed per run. The merge runs at most once per run, so this loses nothing.
- Ports are natural numbers. The settings' own validation of them is not modelled.
- `Path(name)` with a project name or output model name counts as one segment.
  - A name containing '/' or '..' is not split or normalised, and an empty name or "." is kept as a segment where pathlib would drop it.
  - `Path.resolve()` on the root is not modelled: the root is stored as given.
- Creating folders with `mkdir` (`_create_all_root_related_folders`) is a file-system effect and is left out.
- The `isinstance` checks that raise `TypeError` in `__init__` and the two setters are left out. The types of the Dafny parameters already rule out those inputs.
- The construction of `BaseSettings` from keyword arguments and the environment, including overriding a field's default, is left out. Every field starts at its declared default.
- The read-only properties (`return_value`, `string_project_name`, `path_project_*_folder`, `PATH_FOLDER_*`, `PYTHON_EXECUTABLE`) are plain reads of the modelled fields. They have no rows of their own.
- The global `_current_project_paths` is passed to `GetProjectSettings` as a parameter, because it is never assigned in the source.
- The converter, the S3 connection and the YAML settings handler are not part of this model.
