# substrate reference store and helpers, modelled in Dafny

This project is a Dafny model of the core of *substrate*, a small framework for MCP servers. The servers keep named text **references** on disk. Each reference is a YAML file holding content, metadata and timestamps. The servers answer every tool call with a response dictionary that suggests the next tool to call.

The repository has three reference stores. Which one a server uses cannot be seen from the code, so each is modelled as its own class over a directory map:

- `VersionedRefStore` (`src/substrate/components.py`): references under `refs/` carry a version number that every write increments. The store reads legacy `.json` files as a fallback and removes old temporary references.
- `SanitizingRefStore` (`src/substrate/shared/storage/references.py`): names are sanitised by deleting `..` pairs. The store can also compose an input from several references.
- `YamlRefStore` (`src/substrate/shared/storage/reference_manager.py`): taken to be the store the feature handlers call. They use the `reference_manager` of `src/substrate/shared/instances/__init__.py`, built from the `ReferenceManager` that `substrate.shared.storage` exports; that package's `__init__.py` is not part of this model, so which of the two storage classes it exports is an assumption.

Around the stores the model covers these parts:

- the execution handler's input priority and template lookup (`Execution`);
- the references handler's follow-up suggestions (`ReferenceHandler`);
- the three response builders (`Navigation`, `Responses`, `ComponentsResponses`);
- the navigation engine's tool graph and workflow suggestions (`Navigation`);
- the two sampling managers (`Sampling`, `ComponentsSampling`);
- the error hierarchies and `format_error_response` (`Errors`, `SubstrateErrors`, `SharedErrors`);
- the model registry (`ModelRegistry`);
- the prompt loader and its caches (`PromptLoader`);
- instance configuration (`InstanceConfig`);
- workflow discovery (`WorkflowNavigation`);
- documentation lookup (`Documentation`);
- the pure helpers of `src/utils.py` (`Utils`).

Common modelling choices:

- Code that mutates state is a class whose methods carry `modifies` clauses and state the whole new state. Examples are the stores, the sampling managers, the registry, the prompt loader and the workflow cache.
- Code that builds values is a function, with lemmas beside it.
- Python dictionaries and lists are the `Value` datatype of `Common`. Python's truthiness, `in`, `startswith`, `strip` and `sorted` are defined once there.
- A file is a map entry holding either a parsed mapping or `Unparseable`. Writing a mapping and reading it back gives the same mapping.
- Clocks, fresh UUIDs and the environment are parameters.
- Exceptions are `Result` errors, with the same error conditions as the code.

Facts about the code that the model keeps:

- No store locks anything. Each store is a sequential class, and nothing here claims per-name serialisation.
- `update_ref` in `components.py` creates a missing reference rather than failing. The other two stores fail on a missing reference.
- Listing by prefix is plain `startswith`, not segment-aware.
- `components.py` and `reference_manager.py` do not reject `..` segments.
- Names are not rejected for control characters.

## Model

| member | source | states |
|---|---|---|
| `RefFiles.Record` | src/substrate/shared/storage/reference_manager.py:27-32 | the stored document has exactly content, metadata (`metadata or {}`), created and updated, with the given values |
| `RefFiles.Stem` | src/substrate/components.py:366 | dropping the suffix either leaves the name or removes exactly that suffix |
| `RefFiles.StemDrops` | src/substrate/components.py:366 | for a file with a proper suffix, the listed name plus the suffix is the file |
| `VersionedRefStore.Key` | src/substrate/components.py:410-423 | every reference file name ends in `.yaml` |
| `VersionedRefStore.JsonKey` | src/substrate/components.py:299-303 | the legacy file of a name ends in `.json` |
| `VersionedRefStore.KeysDiffer` | src/substrate/components.py:299-303 | the YAML file and the legacy JSON file of a name are different files |
| `VersionedRefStore.KeyOfUnslashed` | src/substrate/components.py:419-423 | a name without outer slashes is stored under itself plus `.yaml`; no component, `..` included, is rejected |
| `VersionedRefStore.OuterSlashesIgnored` | src/substrate/components.py:420 | names differing only by a leading or trailing `/` address the same file |
| `VersionedRefStore.Located` | src/substrate/components.py:297-303 | a read consults the YAML file if present, else the JSON file if present, else reports none, and exactly then |
| `VersionedRefStore.Metadata` | src/substrate/components.py:389-408 | the whole document succeeds iff a located file parses; a missing name fails with the not-found message, the error the corrected two-argument `NotFoundError` call of the Findings gives |
| `VersionedRefStore.Read` | src/substrate/components.py:297-319 | succeeds iff the located document is a mapping with `content`, returning that value; otherwise the metadata failure or a key failure |
| `VersionedRefStore.PlusOne` | src/substrate/components.py:274 | Python's `+ 1` is defined exactly on bools, ints and floats and gives a number |
| `VersionedRefStore.PriorOf` | src/substrate/components.py:262-277 | Python's `version + 1` on the stored version: a bool counts as 0 or 1, an int or float is incremented and its `created` kept; a missing, unreadable or other-typed version gives version 1 and a fresh `created` |
| `VersionedRefStore.Document` | src/substrate/components.py:262-268 | the written document has exactly content, metadata, created, updated and version, with the given content, version and created stamp |
| `VersionedRefStore.ListStep` | src/substrate/components.py:370-373 | one listing step appends a new matching name once and skips a repeated one, keeping the list duplicate-free |
| `VersionedRefStore.ReferenceManager.constructor` | src/substrate/components.py:233-246 | the store starts over the given directory contents |
| `VersionedRefStore.ReferenceManager.CreateRef` | src/substrate/components.py:248-283 | the YAML file is replaced by the new document with the next version and kept `created`; the reply carries the name and that version |
| `VersionedRefStore.ReferenceManager.ReadRef` | src/substrate/components.py:285-319 | returns exactly `Read` of the current files |
| `VersionedRefStore.ReferenceManager.UpdateRef` | src/substrate/components.py:321-326 | is `create_ref` without metadata: it upserts, bumps the version and resets metadata to `{}` |
| `VersionedRefStore.ReferenceManager.DeleteRef` | src/substrate/components.py:340-349 | a missing YAML file fails with not-found (the corrected `NotFoundError` call of the Findings) and changes nothing; otherwise only that file is removed and the reply is `{"deleted": ref}` |
| `VersionedRefStore.ReferenceManager.ListRefs` | src/substrate/components.py:360-375 | the result is sorted, duplicate-free and holds exactly the names of YAML and JSON files, with backslashes turned into slashes, passing the plain `startswith` filter |
| `VersionedRefStore.ReferenceManager.GetRefMetadata` | src/substrate/components.py:389-408 | returns exactly `Metadata` of the current files, so a missing name fails with the corrected not-found error |
| `VersionedRefStore.ReferenceManager.CleanupOldRefs` | src/substrate/components.py:435-452 | removes exactly the YAML/JSON files under the prefix older than now minus the days, except those whose removal fails, and returns how many it removed |
| `VersionedRefStore.VersionIncrements` | src/substrate/components.py:267-275 | a new name gets version 1, the stored version is the one returned, and the next write returns it plus one |
| `VersionedRefStore.VersionCountsWrites` | src/substrate/components.py:267-275 | after k successive writes of a new name the stored version is k and the content is the last one written |
| `VersionedRefStore.YamlShadowsJson` | src/substrate/components.py:299-303 | when the YAML file exists, the legacy file is never read |
| `VersionedRefStore.ReadAfterCreate` | src/substrate/components.py:262-303 | what `create_ref` writes, `read_ref` returns |
| `VersionedRefStore.CreatedIsListed` | src/substrate/components.py:270-283 | a name without outer slashes or backslashes is listed under itself once written |
| `VersionedRefStore.DeleteUncoversLegacy` | src/substrate/components.py:340-346 | deleting a name that also has a JSON file makes later reads return the JSON content |
| `VersionedRefStore.LegacyOnlyNotDeletable` | src/substrate/components.py:340-344 | a record kept only as legacy JSON is readable although `delete_ref` reports it missing |
| `VersionedRefStore.CleanupLeavesOnlyRecent` | src/substrate/components.py:439-447 | after clean-up every remaining swept file is recent or failed to delete, and files outside the sweep are untouched |
| `VersionedRefStore.MissingRefErrorAsWritten` | src/substrate/components.py:306-307 | the not-found raise, as written, calls a two-argument constructor with one argument and fails |
| `VersionedRefStore.MissingRefErrorCorrected` | src/substrate/components.py:306-307 | called with kind and id, the error carries exactly the message the code meant, and it is the error `Read` and `Metadata` give for a missing name |
| `SanitizingRefStore.RemoveDotPairs` | src/substrate/shared/storage/references.py:211 | `replace('..', '')` never lengthens the name |
| `SanitizingRefStore.RemoveDotPairsClean` | src/substrate/shared/storage/references.py:211 | after deleting dot pairs no two dots are adjacent: runs become zero or one dot and cannot merge |
| `SanitizingRefStore.LastComponent` | src/substrate/shared/storage/references.py:214-215 | the final path component has no `/`, ends the path and is preceded by `/` unless it is the whole path |
| `SanitizingRefStore.LastDot` | src/substrate/shared/storage/references.py:215 | the index of the last dot of a name, or -1 when it has none |
| `SanitizingRefStore.Key` | src/substrate/shared/storage/references.py:201-218 | the file is empty exactly when the sanitised name is; a last component with an extension keeps the sanitised name, any other non-empty name gets `.yaml` appended |
| `SanitizingRefStore.SanitizeIsContained` | src/substrate/shared/storage/references.py:211 | a sanitised name has no `..` and does not start with `/` |
| `SanitizingRefStore.Read` | src/substrate/shared/storage/references.py:103-113 | fails with `Reference not found: <ref>` iff the file is absent; succeeds iff it parses to a mapping, returning `content` or `''` |
| `SanitizingRefStore.CreatedStamp` | src/substrate/shared/storage/references.py:63-76 | an existing readable mapping keeps its `created` stamp, with now as the default; anything else is stamped with now |
| `SanitizingRefStore.Collected` | src/substrate/shared/storage/references.py:249-255 | the `refs` loop never collects more contents than names |
| `SanitizingRefStore.JoinContents` | src/substrate/shared/storage/references.py:257-258 | the join succeeds iff every content is a string, giving them joined by the separator |
| `SanitizingRefStore.ReferenceManager.constructor` | src/substrate/shared/storage/references.py:27-41 | the store starts over the given directory contents |
| `SanitizingRefStore.ReferenceManager.CreateRef` | src/substrate/shared/storage/references.py:59-89 | writes content, `metadata or {}`, the kept or new `created` and now; no version; replies with ref, path and both stamps |
| `SanitizingRefStore.ReferenceManager.ReadRef` | src/substrate/shared/storage/references.py:103-113 | returns exactly `Read` of the current files |
| `SanitizingRefStore.ReferenceManager.UpdateRef` | src/substrate/shared/storage/references.py:128-151 | an absent name fails and changes nothing; otherwise only `content` and `updated` are replaced, keeping metadata and `created` |
| `SanitizingRefStore.ReferenceManager.DeleteRef` | src/substrate/shared/storage/references.py:162-176 | returns true iff the file existed, and removes it |
| `SanitizingRefStore.ReferenceManager.ListRefs` | src/substrate/shared/storage/references.py:187-199 | sorted, holding exactly the names of the `.yaml` files, with backslashes turned into slashes, passing the plain `startswith` filter; each name occurs exactly as many times as there are listed files reporting it |
| `SanitizingRefStore.ReferenceManager.CollectRefs` | src/substrate/shared/storage/references.py:249-255 | the `refs` loop gives exactly `Collected`: found contents in order, missing names skipped, another failure ending the loop |
| `SanitizingRefStore.ReferenceManager.ComposeInput` | src/substrate/shared/storage/references.py:243-266 | priority ref > refs > prompt_ref > prompt by truthiness; found `refs` contents are joined in order, missing ones skipped, none found falls through; no input is a `ValueError` |
| `SanitizingRefStore.CollectedErrSticks` | src/substrate/shared/storage/references.py:250-255 | a read failure other than not-found ends the `refs` loop with that failure |
| `SanitizingRefStore.CollectedSkipsMissing` | src/substrate/shared/storage/references.py:254-255 | names that do not exist contribute nothing |
| `SanitizingRefStore.CollectedAllPresent` | src/substrate/shared/storage/references.py:250-253 | when every name is readable, the contents are collected one per name in order |
| `SanitizingRefStore.ReadAfterCreate` | src/substrate/shared/storage/references.py:63-80 | a written reference reads back with its content |
| `SanitizingRefStore.CreatedIsListed` | src/substrate/shared/storage/references.py:63-80 | a plain name, without outer slashes, backslashes, `..` or an extension, is listed under itself once written |
| `SanitizingRefStore.KeyOfPlain` | src/substrate/shared/storage/references.py:201-218 | such a plain name is stored under itself plus `.yaml` |
| `SanitizingRefStore.NoPairsKept` | src/substrate/shared/storage/references.py:211 | deleting `..` pairs leaves a name without any unchanged |
| `SanitizingRefStore.ListingCanRepeat` | src/substrate/shared/storage/references.py:187-199 | two files, `a\b.yaml` and `a/b.yaml`, are both listed as `a/b`, so the listing can repeat a name |
| `SanitizingRefStore.ForeignExtensionNotListed` | src/substrate/shared/storage/references.py:215-216 | a name whose last component has another extension is stored under itself and never listed |
| `YamlRefStore.Key` | src/substrate/shared/storage/reference_manager.py:98-107 | every reference file ends in `.yaml` |
| `YamlRefStore.KeyOfClean` | src/substrate/shared/storage/reference_manager.py:101-105 | a name without backslashes or outer slashes addresses itself, with `.yaml` appended once |
| `YamlRefStore.KeyIdempotent` | src/substrate/shared/storage/reference_manager.py:101-107 | normalising a name twice gives the same file as normalising it once |
| `YamlRefStore.KeyExtensionOptional` | src/substrate/shared/storage/reference_manager.py:104-105 | `x` and `x.yaml` address the same file |
| `YamlRefStore.Read` | src/substrate/shared/storage/reference_manager.py:45-57 | a missing file fails with `Reference not found: <ref>` and unparseable YAML with a parse error; it succeeds iff the file parses and, without `include_metadata`, is a mapping; success returns the whole document with `include_metadata`, else `content` or `""` |
| `YamlRefStore.CreatedStamp` | src/substrate/shared/storage/reference_manager.py:31-34 | a new file gets now; an existing mapping keeps its `created`; the stamp exists iff the file is absent or a parsed mapping, so an unreadable one makes the write fail |
| `YamlRefStore.ReferenceManager.constructor` | src/substrate/shared/storage/reference_manager.py:13-16 | the store starts over the given directory contents |
| `YamlRefStore.ReferenceManager.ReadRef` | src/substrate/shared/storage/reference_manager.py:45-57 | returns exactly `Read` of the current files |
| `YamlRefStore.ReferenceManager.CreateRef` | src/substrate/shared/storage/reference_manager.py:18-43 | writes the document with the kept `created`; the reply's `created` flag is always true because it is computed after the write |
| `YamlRefStore.ReferenceManager.UpdateRef` | src/substrate/shared/storage/reference_manager.py:59-65 | an unreadable or absent name fails unchanged; otherwise it re-creates the record without metadata and replies with the name, `created: True` and the file's path |
| `YamlRefStore.ReferenceManager.DeleteRef` | src/substrate/shared/storage/reference_manager.py:67-82 | an absent name fails unchanged; otherwise only its file is removed and the reply is `{"ref": ref, "deleted": True}` |
| `YamlRefStore.ReferenceManager.ListRefs` | src/substrate/shared/storage/reference_manager.py:84-96 | sorted, holding exactly the names of the `.yaml` files, with a `None` or empty prefix filtering nothing; each name occurs exactly as many times as there are listed files reporting it |
| `YamlRefStore.ListingCanRepeat` | src/substrate/shared/storage/reference_manager.py:84-96 | the files `x/.yaml` and `x/.yaml.yaml` are both listed as `x/.yaml`, so the listing can repeat a name |
| `YamlRefStore.ReadAfterWrite` | src/substrate/shared/storage/reference_manager.py:24-57 | what a write stores is read back, as content and as the whole document |
| `YamlRefStore.RecreateKeepsCreated` | src/substrate/shared/storage/reference_manager.py:31-34 | re-creating a reference keeps the `created` stamp of its first creation |
| `YamlRefStore.WriteIsolated` | src/substrate/shared/storage/reference_manager.py:37 | writing one reference leaves every other file's reads unchanged |
| `YamlRefStore.UpdateClearsMetadata` | src/substrate/shared/storage/reference_manager.py:62-65 | after an update the stored metadata is `{}` |
| `YamlRefStore.ReadAfterDelete` | src/substrate/shared/storage/reference_manager.py:71-74 | a deleted reference is not found any more |
| `YamlRefStore.ListedNameResolves` | src/substrate/shared/storage/reference_manager.py:89 | every listed name resolves back to its file, unless the listed name itself ends in `.yaml` |
| `YamlRefStore.WrittenIsListed` | src/substrate/shared/storage/reference_manager.py:88-94 | a reference written under a clean name without `.yaml` is listed under that name |
| `Execution.Collect` | src/substrate/features/execution/handler.py:90-93 | collecting reads in order yields one content per name when it succeeds |
| `Execution.CollectIff` | src/substrate/features/execution/handler.py:90-93 | collecting succeeds iff every read does, and keeps each content in place |
| `Execution.CollectFirstError` | src/substrate/features/execution/handler.py:91-92 | a failing read propagates: the result is the first failure, not a skip |
| `Execution.CollectErrPrefix` | src/substrate/features/execution/handler.py:91-92 | once a read has failed, later names do not change the error |
| `Execution.Reads` | src/substrate/features/execution/handler.py:91-92 | one read outcome per name, in list order |
| `Execution.JoinedOne` | src/substrate/features/execution/handler.py:95 | joining a single content gives that content |
| `Execution.JoinedTwo` | src/substrate/features/execution/handler.py:95 | two contents are joined with `"\n\n---\n\n"` between them |
| `Execution.InputType` | src/substrate/features/execution/handler.py:121-138 | the label is one of the five input types |
| `Execution.InputTypeAgrees` | src/substrate/features/execution/handler.py:84-138 | the label names exactly the branch `_resolve_input` takes, and is `"none"` iff resolution raises for want of input |
| `Execution.PromptBeatsPromptRef` | src/substrate/features/execution/handler.py:97-104 | with neither `ref` nor `refs`, a truthy prompt is the input even when `prompt_ref` is given |
| `Execution.OneRefCombined` | src/substrate/features/execution/handler.py:89-95 | a one-element `refs` gives the same input as that `ref` alone |
| `Execution.TwoRefsCombined` | src/substrate/features/execution/handler.py:89-95 | two references combine in list order with the separator |
| `Execution.TemplateNeedsPromptRef` | src/substrate/features/execution/handler.py:109-119 | a template is used only when `prompt_ref` is truthy and its file exists |
| `Execution.Formatted` | src/substrate/features/execution/handler.py:56 | a string input is placed in the result unchanged |
| `Execution.ResultContent` | src/substrate/features/execution/handler.py:56 | the result is `"[Transformed using template]\n"` followed by the input |
| `Execution.Preview` | src/substrate/features/execution/handler.py:68 | the preview equals a text of at most 200 characters, else its first 200 characters plus `"..."` |
| `Execution.PreviewKeepsHeader` | src/substrate/features/execution/handler.py:56-68 | every preview starts with the header and has at most 203 characters |
| `Execution.Outcome` | src/substrate/features/execution/handler.py:63-69 | the reply has exactly status, input type, `template_used`, `saved_as` and the preview |
| `Execution.ExecutionHandler.constructor` | src/substrate/features/execution/handler.py:13-18 | the handler works through the given store |
| `Execution.ExecutionHandler.CombineRefs` | src/substrate/features/execution/handler.py:89-95 | reads each reference in turn and joins the contents, or fails with the first read failure |
| `Execution.ExecutionHandler.ResolveInput` | src/substrate/features/execution/handler.py:75-107 | priority `ref` > `refs` > `prompt_ref` (only without a prompt) > `prompt`, else `ValueError` |
| `Execution.ExecutionHandler.ResolveTemplate` | src/substrate/features/execution/handler.py:109-119 | None when `prompt_ref` is falsy or its read fails, else the read content; `template_used` is its truthiness |
| `Execution.ExecutionHandler.ExecuteTransformation` | src/substrate/features/execution/handler.py:47-73 | an input failure propagates with no write; the result is stored under `save_as` iff it is truthy and then reads back |
| `ReferenceHandler.FirstSegment` | src/substrate/features/references/handler.py:141 | `ref.split('/')[0]` is the slash-free text before the first `/`, or the whole name when it has none |
| `ReferenceHandler.ActionsFor` | src/substrate/features/references/handler.py:129-169 | at most three suggestions for any operation other than `list` |
| `ReferenceHandler.SuggestNextActionsAsWritten` | src/substrate/features/references/handler.py:171-180 | fails iff the operation is `list` (the unbound `prefix`), and otherwise gives the suggestion table |
| `ReferenceHandler.ListAsWrittenFails` | src/substrate/features/references/handler.py:171-172 | every `list` call raises on the unbound `prefix` |
| `ReferenceHandler.SuggestNextActions` | src/substrate/features/references/handler.py:118-180 | agrees with the code as written on every operation except `list` |
| `ReferenceHandler.ListSuggestsDrillDown` | src/substrate/features/references/handler.py:171-178 | with the listed prefix bound, one drill-down to `prefix/` is suggested iff the prefix is non-empty and has no `/` |
| `ReferenceHandler.CreateUpdateReadFirst` | src/substrate/features/references/handler.py:131-137 | after create or update, the first suggestion is `read_ref` with `{"ref": ref}` |
| `ReferenceHandler.CreateUpdateListing` | src/substrate/features/references/handler.py:140-146 | a `list_refs` suggestion appears iff `/` is in the name, with the first segment as prefix |
| `ReferenceHandler.CreateUpdateEnhance` | src/substrate/features/references/handler.py:149-154 | an `enhance_prompt` suggestion appears iff `"prompt"` occurs in the lower-cased name |
| `ReferenceHandler.ReadSuggestions` | src/substrate/features/references/handler.py:156-169 | `read` yields exactly `[update_ref, execute]` |
| `ReferenceHandler.OtherOperationsSuggestNothing` | src/substrate/features/references/handler.py:129-180 | any other operation yields `[]` |
| `ReferenceHandler.ListedCategoryIsPrefix` | src/substrate/features/references/handler.py:140-141 | the suggested category is a slash-free prefix of the name followed by `/` |
| `ReferenceHandler.ReferenceHandler.constructor` | src/substrate/features/references/handler.py:14-16 | the handler works through the given store |
| `ReferenceHandler.ReferenceHandler.CreateReference` | src/substrate/features/references/handler.py:31-38 | the store's result is returned unchanged: failures propagate, and otherwise the name, `created: True` and the path, with the new record written |
| `ReferenceHandler.ReferenceHandler.ReadReference` | src/substrate/features/references/handler.py:50-57 | the store's content or failure, unchanged |
| `ReferenceHandler.ReferenceHandler.UpdateReference` | src/substrate/features/references/handler.py:70-77 | a missing reference fails unchanged; otherwise the record is rewritten without metadata and with its `created` kept, the reply names it, and the new content reads back, alone and as the whole document |
| `ReferenceHandler.ReferenceHandler.DeleteReference` | src/substrate/features/references/handler.py:89-96 | afterwards the reference is not found; an absent one fails unchanged |
| `ReferenceHandler.ReferenceHandler.ListReferences` | src/substrate/features/references/handler.py:108-116 | the store's sorted listing: exactly the listed names, each occurring as many times as there are listed files reporting it |
| `Navigation.ToDict` | src/substrate/shared/response/builder.py:17-23 | the dictionary has exactly tool, reason and params |
| `Navigation.ToDictForgetsConfidence` | src/substrate/shared/response/builder.py:17-23 | the confidence does not reach the dictionary |
| `Navigation.SuggestNext` | src/substrate/shared/response/builder.py:94-101 | the keyword arguments become the params, at the default confidence 0.8 |
| `Navigation.Meta` | src/substrate/shared/response/builder.py:53-63 | server and timestamp always, the tool when truthy, and caller metadata merged last so it can override |
| `Navigation.MetaKeys` | src/substrate/shared/response/builder.py:53-63 | the metadata keys are exactly server, timestamp, tool when truthy, and the caller's keys |
| `Navigation.Build` | src/substrate/shared/response/builder.py:51-75 | `data` and `metadata` always; each suggestion passes through `to_dict`, in order; the message when truthy |
| `Navigation.BuildKeys` | src/substrate/shared/response/builder.py:65-73 | `suggestions` appears only for a non-empty list and `message` only when truthy |
| `Navigation.Error` | src/substrate/shared/response/builder.py:77-82 | data is the error with `details or {}`, and the metadata status is `"error"` |
| `Navigation.Success` | src/substrate/shared/response/builder.py:84-92 | the data is kept, and the metadata status is `"success"` |
| `Navigation.StatusMetaKeys` | src/substrate/shared/response/builder.py:79-91 | with only a status, the metadata is exactly server, timestamp and status |
| `Navigation.ErrorKeys` | src/substrate/shared/response/builder.py:77-82 | an error response has exactly data and metadata |
| `Navigation.SuccessKeys` | src/substrate/shared/response/builder.py:84-92 | a success response carries suggestions iff the list is non-empty |
| `Navigation.BuildParams` | src/substrate/shared/response/builder.py:227-248 | `prompt_ref` iff `output_ref` is in the context and `ref` or `prompt` is in the target tool; campaign ids default to `"$last_campaign"`; no other keys |
| `Navigation.GraphSuggestions` | src/substrate/shared/response/builder.py:207-217 | one suggestion per edge in table order at confidence 0.9, none for a tool outside the graph |
| `Navigation.FirstIndex` | src/substrate/shared/response/builder.py:257 | `tools.index` is the first position of the tool |
| `Navigation.WorkflowStep` | src/substrate/shared/response/builder.py:256-265 | the tool after the first occurrence, none when that occurrence is last |
| `Navigation.WorkflowSuggestions` | src/substrate/shared/response/builder.py:255-267 | at most one suggestion per workflow, all at 0.7, none for a tool in no workflow |
| `Navigation.GetWorkflowSuggestions` | src/substrate/shared/response/builder.py:250-267 | the loop yields exactly the per-workflow successors in table order |
| `Navigation.NonIncreasingSnoc` | src/substrate/shared/response/builder.py:224 | appending a lowest-confidence element keeps descending order |
| `Navigation.InsertDesc` | src/substrate/shared/response/builder.py:224 | stable insertion keeps descending order and the elements |
| `Navigation.SortDesc` | src/substrate/shared/response/builder.py:224 | the sort is descending by confidence and a permutation |
| `Navigation.SortDescStable` | src/substrate/shared/response/builder.py:224 | an already descending list is left unchanged |
| `Navigation.Top5` | src/substrate/shared/response/builder.py:225 | at most five, a prefix, all of a short list |
| `Navigation.CollectGraphSuggestions` | src/substrate/shared/response/builder.py:207-217 | the loop yields exactly the graph suggestions |
| `Navigation.GraphBeforeWorkflow` | src/substrate/shared/response/builder.py:216-224 | graph suggestions followed by workflow ones are already in descending order |
| `Navigation.GetSuggestions` | src/substrate/shared/response/builder.py:202-225 | the first five of graph suggestions then workflow ones, each in table order |
| `Navigation.UnknownToolNoSuggestions` | src/substrate/shared/response/builder.py:207 | a tool in neither table gets `[]` |
| `Navigation.ContentPipelineUsesFirstOccurrence` | src/substrate/shared/response/builder.py:188-193 | a repeated tool continues from its first occurrence |
| `Navigation.LastToolEndsWorkflow` | src/substrate/shared/response/builder.py:180-186 | the last tool of a workflow has no successor in it |
| `Responses.Update` | src/responses.py:63 | `dict.update`: keys are the union, extra values win, other values kept |
| `Responses.FormatAnnotations` | src/responses.py:107-123 | a dict is laid over the defaults (priority 0.5, audience user+assistant), the caller's keys winning; anything else passes through |
| `Responses.SuccessBody` | src/responses.py:43-52 | `success` is True with the timestamp; `data` when not None, `message` when truthy |
| `Responses.SuccessBodyKeys` | src/responses.py:43-52 | `data` appears iff it is not None and `message` iff it is truthy |
| `Responses.Annotated` | src/responses.py:54-60 | annotations are formatted and metadata added, each only when truthy |
| `Responses.AnnotatedKeys` | src/responses.py:54-60 | `_annotations` and `_metadata` appear exactly when truthy |
| `Responses.Success` | src/responses.py:22-65 | the extra fields are applied last and may override any key |
| `Responses.ErrorBody` | src/responses.py:88-101 | `success` False and `error` always; `error_code`, `details` and `suggestions` present exactly when truthy, with their values |
| `Responses.ErrorBodyKeys` | src/responses.py:94-101 | the optional error keys appear exactly when truthy |
| `Responses.Error` | src/responses.py:67-105 | the extra fields are applied last and may override any key |
| `Responses.SuccessFlag` | src/responses.py:43-91 | without an overriding extra field, success says True and error says False |
| `Responses.StrList` | src/responses.py:101 | the suggestion list is kept element by element |
| `Responses.FloorDiv` | src/responses.py:172 | Python `//` rounds toward negative infinity and fails on a zero divisor |
| `Responses.Pagination` | src/responses.py:169-181 | `total` defaults to the item count, `has_prev` iff page > 1, `has_next` iff page < total pages; a zero page size fails |
| `Responses.PagesCoverTotal` | src/responses.py:172 | with a positive page size, total pages is the ceiling of total over the page size |
| `Responses.LastPageHasNoNext` | src/responses.py:179-180 | page 1 has no previous page and the last page no next one |
| `Responses.Paginated` | src/responses.py:148-189 | the data holds the items and the pagination block, and a zero page size fails |
| `Responses.FileData` | src/responses.py:212-227 | size is `len(content)`, bytes are flagged binary and decoded, encoding when truthy |
| `Responses.FileDataKeys` | src/responses.py:212-227 | `encoding` appears only when given and `is_binary` only for bytes |
| `Responses.FileResponse` | src/responses.py:191-229 | a success response carrying the file block |
| `Responses.ComparisonData` | src/responses.py:250-259 | `comparison_count = len(results)`; `winner` and `metrics` when truthy |
| `Responses.ComparisonDataKeys` | src/responses.py:250-259 | `winner` and `metrics` appear exactly when truthy |
| `Responses.ComparisonResult` | src/responses.py:231-261 | a success response carrying the comparison block |
| `Responses.Clamp01` | src/responses.py:142 | the progress value is clamped into [0, 1] and unchanged inside it |
| `Responses.MutableResponse.constructor` | src/responses.py:127 | the response holds the given fields |
| `Responses.WithProgress` | src/responses.py:125-146 | the passed response gains `_progress` in place, nothing else changes, and the same object is returned |
| `ComponentsResponses.CreateBody` | src/substrate/components.py:29-42 | `success` and timestamp always; on success `data` when not None; on failure `error` or `"Unknown error"`; `message` when truthy |
| `ComponentsResponses.CreateBodyKeys` | src/substrate/components.py:29-42 | a success body never has `error`, a failure body never has `data` |
| `ComponentsResponses.Create` | src/substrate/components.py:20-47 | the keyword arguments are applied last and win on shared keys |
| `ComponentsResponses.Success` | src/substrate/components.py:49-56 | success is True, no `error`, and the data when given |
| `ComponentsResponses.Error` | src/substrate/components.py:58-72 | success is False, `error_type` always, `suggestions` only when non-empty, never `data` |
| `ComponentsResponses.PageData` | src/substrate/components.py:83-92 | items, page, page size and count always; total and total pages only with a total, where a zero page size fails |
| `ComponentsResponses.PageDataCoversTotal` | src/substrate/components.py:92 | total pages is the ceiling of total over a positive page size |
| `ComponentsResponses.Paginated` | src/substrate/components.py:74-94 | a success response whose data is the page block |
| `ComponentsResponses.ComparisonData` | src/substrate/components.py:105-111 | `results` always; `winner` and `metrics` exactly when truthy |
| `ComponentsResponses.ComparisonResult` | src/substrate/components.py:96-113 | a success response carrying the comparison block |
| `ComponentsSampling.Number` | src/substrate/components.py:205 | only numbers can be subtracted from the clock |
| `ComponentsSampling.ShouldRequestSampling` | src/substrate/components.py:156-159 | true exactly for help, constraints and clarification |
| `ComponentsSampling.Stored` | src/substrate/components.py:180-185 | the stored dict has prompt, context and creation time, with keyword arguments spread last |
| `ComponentsSampling.Stale` | src/substrate/components.py:213-215 | the expired ids are exactly those older than the maximum age |
| `ComponentsSampling.StaleShrinksWithAge` | src/substrate/components.py:214 | a wider age limit never expires more requests |
| `ComponentsSampling.CollectStale` | src/substrate/components.py:210-215 | the collecting loop yields exactly the stale ids, or raises on a non-numeric time |
| `ComponentsSampling.RemoveAll` | src/substrate/components.py:217-218 | popping every collected id removes exactly those ids |
| `ComponentsSampling.SamplingManager.constructor` | src/substrate/components.py:153-154 | no request is pending |
| `ComponentsSampling.SamplingManager.CreateRequest` | src/substrate/components.py:161-187 | the request is stored under its id, and the reply carries `context` only when truthy |
| `ComponentsSampling.SamplingManager.HandleCallback` | src/substrate/components.py:189-206 | an unknown id returns `processed: False` and changes nothing; a known id is removed and echoed |
| `ComponentsSampling.SamplingManager.CleanupOldRequests` | src/substrate/components.py:208-221 | removes exactly the entries older than the maximum age, and every remaining one is younger |
| `Sampling.ContextValue` | src/sampling.py:143 | the echoed context is None exactly when none was given |
| `Sampling.ShouldRequestSampling` | src/sampling.py:51-59 | true exactly for help, constraints, clarification, options and error_recovery |
| `Sampling.CallbackTool` | src/sampling.py:83 | the callback tool is the prefix followed by `_sampling_callback` |
| `Sampling.ExpiredIds` | src/sampling.py:166-169 | the expired ids are exactly those whose deadline is before now |
| `Sampling.ExpiredGrows` | src/sampling.py:166-169 | a later sweep expires at least what an earlier one would |
| `Sampling.FreshSurvives` | src/sampling.py:96 | a request survives every sweep up to 300 seconds after its creation, and every later sweep expires it |
| `Sampling.HandlerKeys` | src/sampling.py:147-154 | a registered handler adds exactly one of `handler_result` or `handler_error`, none without a handler |
| `Sampling.Settled` | src/sampling.py:139-154 | the result echoes the id, the original prompt, the response and the context, plus the handler's outcome |
| `Sampling.SettledKeys` | src/sampling.py:139-154 | the settled result has exactly the four echoed keys plus the handler key |
| `Sampling.RemoveOne` | src/sampling.py:136 | popping a present id shrinks the pending map by one |
| `Sampling.DropAll` | src/sampling.py:171-175 | the sweep loop removes exactly the expired ids from all three maps |
| `Sampling.SamplingManager.constructor` | src/sampling.py:27-36 | the three maps start empty and the invariant holds |
| `Sampling.SamplingManager.PendingCount` | src/sampling.py:180-182 | the count is the number of pending ids |
| `Sampling.SamplingManager.CreateRequest` | src/sampling.py:61-113 | adds the id to pending with deadline now + 300, the handler only if given, keeps the invariant, and returns the injected dict |
| `Sampling.SamplingManager.HandleResponse` | src/sampling.py:115-157 | an unknown id changes nothing; a known id leaves all three maps and the result echoes prompt and context |
| `Sampling.SamplingManager.SweepExpired` | src/sampling.py:165-175 | removes exactly the ids with now > deadline from all three maps, keeping the invariant |
| `Sampling.SamplingManager.ClearAll` | src/sampling.py:184-188 | all three maps are emptied and the pending count is 0 |
| `Errors.Base` | src/errors.py:15-34 | `details` defaults to `{}` and `suggestions` to `[]` |
| `Errors.SetDetails` | src/errors.py:54 | `setdefault("details", {})` then item assignment or an update: fails only on an explicit `None`, with `TypeError` for item assignment and `AttributeError` for `.update`, otherwise the given details with the new keys laid over them |
| `Errors.AddSuggestions` | src/errors.py:119-123 | `setdefault("suggestions", [])` then an extend: fails only on an explicit `None`, with `AttributeError`, otherwise appends in order |
| `Errors.Validation` | src/errors.py:48-55 | code `VALIDATION_ERROR`, with `details.field` set iff a truthy field is given |
| `Errors.NotFound` | src/errors.py:58-68 | message `"<type> '<id>' not found"`, code `NOT_FOUND`, both values in the details |
| `Errors.Permission` | src/errors.py:71-81 | `" on resource: R"` and `details.resource` only for a truthy resource; `details.action` always |
| `Errors.RateLimit` | src/errors.py:84-106 | limit and window in the details; the wait time and a wait suggestion only when `retry_after` is truthy |
| `Errors.Timeout` | src/errors.py:109-124 | operation and timeout in the details, and the three suggestions always appended |
| `Errors.ExternalService` | src/errors.py:127-142 | the original error in the message and details only when truthy; `details.service` always |
| `Errors.Classes` | src/errors.py:217 | an error is an instance of its own class, of `SubstrateError` and of `Exception` |
| `Errors.ForeignDetails` | src/errors.py:179-184 | the details of an unexpected error are its type name, plus the traceback when requested or debugging |
| `Errors.FormatErrorResponse` | src/errors.py:145-194 | our errors keep message and code, and details, when truthy; their suggestions are their own followed by the non-empty extras; `error_code`, `details` and `suggestions` are absent exactly when falsy. Any other exception becomes `INTERNAL_ERROR` with its type in the details, and carries the given suggestions, or the two defaults when none are given |
| `Errors.FirstMatch` | src/errors.py:216-218 | the first handler whose type matches, and none exactly when no handler matches |
| `Errors.HandleErrors` | src/errors.py:212-222 | the first matching handler answers; otherwise `format_error_response` |
| `SharedErrors.NewNotFound` | src/substrate/shared/errors.py:37-59 | when both kind and identifier are truthy the message becomes `kind 'id' not found`, otherwise the given message is kept; missing suggestions become `[]` |
| `SharedErrors.ToDict` | src/substrate/shared/errors.py:24-72 | always the message; `field`, `resource_type`, `resource_id` and `suggestions` each present exactly when truthy and then holding the given value; a validation error has no resource keys and a not-found error no field |
| `SharedErrors.AgreesWithSubstrateNotFound` | src/substrate/shared/errors.py:53-54 | with a kind and an identifier, the shared not-found error has the same message and dictionary as the substrate one |
| `SubstrateErrors.NewValidation` | src/substrate/errors.py:14-22 | message and field kept; missing suggestions become `[]` |
| `SubstrateErrors.NotFoundCall` | src/substrate/errors.py:37-47 | with at most two positional strings, the constructor succeeds exactly when given two, which become kind and identifier, with no suggestions |
| `SubstrateErrors.Message` | src/substrate/errors.py:43 | a not-found message starts with the kind and ends with `' not found` |
| `SubstrateErrors.ToDict` | src/substrate/errors.py:24-58 | always the message; a validation error carries `field` and `suggestions` exactly when truthy, with their values, and no resource keys; a not-found error always names kind and identifier, never a field, and carries its suggestions exactly when there are some; no other keys |
| `SubstrateErrors.NotFoundMessageShape` | src/substrate/errors.py:43-55 | the exact message and dictionary of a not-found error without suggestions |
| `Utils.SliceTo` | src/utils.py:68 | Python's `text[:n]`: a prefix clamped to the length, and a negative bound counts from the end |
| `Utils.TruncateString` | src/utils.py:50-68 | the text unchanged when it fits; otherwise it ends with the suffix, and with a limit at least the suffix's length it is exactly the limit long |
| `Utils.TruncateWithinLimit` | src/utils.py:65-68 | with a limit at least the suffix's length the result never exceeds it, and it is the text itself iff the text fits |
| `Utils.TruncateOverLimitAsWritten` | src/utils.py:68 | a limit shorter than the suffix gives a result longer than the limit |
| `Utils.TruncateClamped` | src/utils.py:50-68 | the corrected truncation never exceeds the limit and agrees with the original whenever the limit leaves room for the suffix |
| `Utils.DeepMerge` | src/utils.py:108-133 | the keys of both; base-only keys keep their value; the update wins except for two dictionaries, whose value is the deep merge of the two, and, with `merge_lists`, two lists (concatenated) |
| `Utils.MergeEmptyUpdate` | src/utils.py:123-133 | merging in nothing gives back the base |
| `Utils.MergeIntoEmpty` | src/utils.py:123-133 | merging into nothing gives back the update |
| `Utils.MergeIdempotent` | src/utils.py:123-133 | without list concatenation, merging the same update a second time changes nothing |
| `Utils.MergeIntoItself` | src/utils.py:125-126 | a dictionary merged into itself is unchanged |
| `Utils.ReplaceInvalid` | src/utils.py:149 | no character of `<>:"/\|?*` survives except those brought in by the replacement |
| `Utils.DropControl` | src/utils.py:152 | only characters with code at least 32 remain, each printable character as often as before |
| `Utils.Trimmed` | src/utils.py:149-155 | after the three cleaning steps every character is printable and valid or from the replacement, and the name does not start with a dot or a space |
| `Utils.SanitizeFilename` | src/utils.py:136-161 | `unnamed` when the replaced, printable and trimmed name is empty; otherwise the first 255 characters of that trimmed name (all of it when shorter); never empty, at most 255 characters, and never starting with a dot or a space |
| `Utils.SanitizeFilenameClean` | src/utils.py:149-161 | every character is printable, and with a clean replacement none is invalid |
| `Utils.SanitizeCutAfterTrim` | src/utils.py:155-161 | a non-empty name that needs no cleaning is returned unchanged, cut to its first 255 characters when longer; the cut follows the trim, so a long result can end in a space |
| `Utils.Chunks` | src/utils.py:217-220 | the chunks concatenate to the items, are non-empty and at most the size, and all but the last are exactly the size |
| `Utils.ChunkList` | src/utils.py:207-220 | a zero size fails as `range` does, a negative one gives no chunks, a positive one chunks the items |
| `Utils.ChunkCount` | src/utils.py:217-220 | the number of chunks is the length divided by the size, rounded up |
| `Utils.Leaves` | src/utils.py:240-246 | every entry written is a non-dictionary value |
| `Utils.FlattenDict` | src/utils.py:223-248 | a result exists exactly when no two distinct leaves share a path, and then holds exactly the leaves, keyed by their paths, and no dictionary values |
| `Utils.FlattenPaths` | src/utils.py:240-246 | a top-level scalar keeps its joined key; a nested dictionary's leaves are included; an empty nested dictionary contributes nothing |
| `ModelRegistry.ParseProvider` | src/substrate/shared/models/registry.py:83 | a recognised provider name is the spelling of the provider it yields |
| `ModelRegistry.ParseSize` | src/substrate/shared/models/registry.py:84 | a recognised size name is the spelling of the size it yields |
| `ModelRegistry.ParseProviderEnv` | src/substrate/shared/models/registry.py:83 | every provider's upper-case spelling parses back to that provider |
| `ModelRegistry.ParseSizeEnv` | src/substrate/shared/models/registry.py:84 | every size's upper-case spelling parses back to that size |
| `ModelRegistry.CostTier` | src/substrate/shared/models/registry.py:47-57 | XS and S are tier 1, M 2, L 3, XL 4, XXL 5; tiers lie in 1..5 |
| `ModelRegistry.CostTierMonotone` | src/substrate/shared/models/registry.py:49-56 | a larger size never has a cheaper tier |
| `ModelRegistry.IndexOf` | src/substrate/shared/models/registry.py:75 | the first occurrence of a character, or none when it does not occur |
| `ModelRegistry.FirstUnderscore` | src/substrate/shared/models/registry.py:62 | in `provider_size` the first underscore separates the two names |
| `ModelRegistry.IdentifierInjective` | src/substrate/shared/models/registry.py:59-62 | distinct provider/size pairs have distinct identifiers |
| `ModelRegistry.DropNewline` | src/substrate/shared/models/registry.py:75 | `$` tolerates exactly one trailing newline |
| `ModelRegistry.ParseBodyIff` | src/substrate/shared/models/registry.py:75 | the `PROVIDER_SIZE` part parses to a pair iff it spells that pair |
| `ModelRegistry.ParseModelKeyOfName` | src/substrate/shared/models/registry.py:75-78 | every declared variable name matches the key pattern with its pair |
| `ModelRegistry.ParseModelKeyIsName` | src/substrate/shared/models/registry.py:75-78 | a key that matches is that pair's variable name, possibly with one trailing newline |
| `ModelRegistry.ParseModelKeyIff` | src/substrate/shared/models/registry.py:75-78 | a key matches with a pair iff it is that pair's variable name, possibly with one trailing newline |
| `ModelRegistry.EnvGet` | src/substrate/shared/models/registry.py:87-90 | `os.getenv` finds a value iff the variable is set |
| `ModelRegistry.DeclOf` | src/substrate/shared/models/registry.py:78-84 | an accepted entry is stored under the identifier of its pair |
| `ModelRegistry.Decls` | src/substrate/shared/models/registry.py:77-79 | one declaration per environment entry, each stored under its pair's identifier |
| `ModelRegistry.AssignedKeys` | src/substrate/shared/models/registry.py:77-106 | an identifier is loaded iff some accepted entry declares it |
| `ModelRegistry.AssignedLastWins` | src/substrate/shared/models/registry.py:106 | a loaded identifier carries the api name of the last entry declaring it |
| `ModelRegistry.FirstSeen` | src/substrate/shared/models/registry.py:106 | the identifiers in the order they were first stored, each once, exactly the loaded ones |
| `ModelRegistry.ModelInfo.constructor` | src/substrate/shared/models/registry.py:29-57 | the dataclass defaults (4096 tokens, system prompts and streaming supported) and the cost tier of the size |
| `ModelRegistry.MaxTokensFor` | src/substrate/shared/models/registry.py:110-131 | Anthropic XL/XXL 8192, other Anthropic 4096; OpenAI `o1*` 32768, other OpenAI 4096; Google 8192; Groq 1024 |
| `ModelRegistry.ConfigureModelSpecifics` | src/substrate/shared/models/registry.py:108-131 | sets the provider's token limit and turns off system prompts for `o1*` OpenAI models; nothing else changes |
| `ModelRegistry.AllLoadedUpdate` | src/substrate/shared/models/registry.py:106 | storing a freshly loaded model keeps every stored model as loading made it |
| `ModelRegistry.AssignedStep` | src/substrate/shared/models/registry.py:77-106 | one more entry updates the stored api names and the first-seen order as the loop does |
| `ModelRegistry.NewModel` | src/substrate/shared/models/registry.py:80-103 | a fresh, configured model with the entry's api name, its identifier as nickname, and the provider's api key and base url from the environment |
| `ModelRegistry.Store` | src/substrate/shared/models/registry.py:93-106 | one loop body: the new model replaces any earlier one under its identifier, and the key order gains the identifier only when new |
| `ModelRegistry.StoreAll` | src/substrate/shared/models/registry.py:77-106 | after the loop, the models are exactly the declared ones, in first-seen order, each configured and carrying its last api name |
| `ModelRegistry.LoadFromEnvironment` | src/substrate/shared/models/registry.py:72-106 | every accepted entry becomes a configured model under its identifier, the last declaration winning |
| `ModelRegistry.Select` | src/substrate/shared/models/registry.py:151-157 | the order-preserving filter: one entry per identifier whose model passes every given filter, the model of the i-th such identifier sitting at position i, and nothing else |
| `ModelRegistry.AllPairs` | src/substrate/shared/models/registry.py:183-184 | the 24 provider/size pairs |
| `ModelRegistry.PairAt` | src/substrate/shared/models/registry.py:183-184 | providers in the outer loop and sizes in the inner one |
| `ModelRegistry.ExpectedIds` | src/substrate/shared/models/registry.py:183-185 | the 24 identifiers `validate` expects |
| `ModelRegistry.ExpectedIdAt` | src/substrate/shared/models/registry.py:183-185 | each expected identifier sits at its row-major position |
| `ModelRegistry.ExpectedIdsComplete` | src/substrate/shared/models/registry.py:183-185 | every provider/size combination is expected |
| `ModelRegistry.MissingModels` | src/substrate/shared/models/registry.py:186-187 | at most one report per expected identifier |
| `ModelRegistry.MissingApiKeys` | src/substrate/shared/models/registry.py:188-189 | at most one report per expected identifier |
| `ModelRegistry.MissingModelsIff` | src/substrate/shared/models/registry.py:186-187 | an identifier is reported missing iff it is expected and not loaded |
| `ModelRegistry.MissingApiKeysIff` | src/substrate/shared/models/registry.py:188-189 | an identifier is reported keyless iff it is expected, loaded and its key is falsy |
| `ModelRegistry.MissingDisjoint` | src/substrate/shared/models/registry.py:186-189 | no identifier is both missing and keyless |
| `ModelRegistry.ApiNamesCons` | src/substrate/shared/models/registry.py:193 | the api names of the models are those of the first plus those of the rest |
| `ModelRegistry.ApiNamesBound` | src/substrate/shared/models/registry.py:193 | there are no more distinct api names than models |
| `ModelRegistry.NewNamesStep` | src/substrate/shared/models/registry.py:194-198 | the same step for the api names the duplicate loop records |
| `ModelRegistry.NewNamesBound` | src/substrate/shared/models/registry.py:194-198 | unseen api names are no more than the models |
| `ModelRegistry.DupsFromCount` | src/substrate/shared/models/registry.py:192-198 | one duplicate report per model whose api name was already seen: the models minus the distinct names |
| `ModelRegistry.DupsFromEmpty` | src/substrate/shared/models/registry.py:192-198 | no duplicate reports iff all api names differ |
| `ModelRegistry.ApiPairs` | src/substrate/shared/models/registry.py:193-198 | one identifier/api-name pair per model |
| `ModelRegistry.MissingStep` | src/substrate/shared/models/registry.py:186-189 | each expected identifier extends at most one of the two lists |
| `ModelRegistry.ProviderRow` | src/substrate/shared/models/registry.py:183-185 | the six identifiers of one provider are consecutive among the expected ones, in size order |
| `ModelRegistry.IdentifierAt` | src/substrate/shared/models/registry.py:185 | the identifier built from a provider and a size is the expected one at their position |
| `ModelRegistry.CheckProvider` | src/substrate/shared/models/registry.py:184-189 | the inner loop adds the six sizes of one provider to the two lists |
| `ModelRegistry.CheckExpected` | src/substrate/shared/models/registry.py:183-189 | the two lists are the missing and the keyless expected identifiers, in loop order |
| `ModelRegistry.FindDuplicates` | src/substrate/shared/models/registry.py:192-198 | one message, naming both identifiers and the api name, per model whose api name an earlier model used |
| `ModelRegistry.NonEmptyIssues` | src/substrate/shared/models/registry.py:200 | exactly the non-empty categories, each unchanged |
| `ModelRegistry.Registry.constructor` | src/substrate/shared/models/registry.py:68-70 | the registry holds what loading the environment yields |
| `ModelRegistry.Registry.Get` | src/substrate/shared/models/registry.py:133-135 | the model stored under the identifier iff there is one, and its identifier is the one asked for |
| `ModelRegistry.Registry.GetByApiName` | src/substrate/shared/models/registry.py:137-142 | the first model in insertion order with that api name, and none iff no model has it |
| `ModelRegistry.Registry.ListModels` | src/substrate/shared/models/registry.py:148-159 | the models matching every given filter, in insertion order: one entry per matching model, placed after the matching models inserted before it |
| `ModelRegistry.Registry.Validate` | src/substrate/shared/models/registry.py:174-200 | the missing, keyless and duplicate reports, keeping only non-empty categories |
| `PromptLoader.Models` | src/substrate/shared/prompts/loader.py:28-31 | the `models` metadata entry, or an empty list when absent |
| `PromptLoader.Effectiveness` | src/substrate/shared/prompts/loader.py:33-36 | the `effectiveness` metadata entry, or `0.0` when absent |
| `PromptLoader.NormalizePath` | src/substrate/shared/prompts/loader.py:49-51 | the result always ends in `.yaml` or `.yml`; a path already ending so is kept, any other gets `.yaml` appended |
| `PromptLoader.NormalizeIdempotent` | src/substrate/shared/prompts/loader.py:49-51 | normalising twice is normalising once |
| `PromptLoader.PromptsOf` | src/substrate/shared/prompts/loader.py:65-71 | the prompts mapping exactly when the document is a mapping whose `prompts` is a mapping; a mapping without `prompts` raises the missing-key error; a `prompts` entry that is not a mapping raises AttributeError; a document that is not a mapping raises TypeError or the missing-key error, and TypeError when it is a scalar |
| `PromptLoader.PromptOf` | src/substrate/shared/prompts/loader.py:71-91 | a string prompt has empty metadata; a dictionary prompt takes `content` (default `''`) and the other keys as metadata; any other shape is rejected |
| `PromptLoader.PromptOfDictKeeps` | src/substrate/shared/prompts/loader.py:82-83 | a dictionary prompt's metadata is every key except `content`, unchanged |
| `PromptLoader.ParsesUnique` | src/substrate/shared/prompts/loader.py:69-93 | a file determines its prompts |
| `PromptLoader.ParsePrompts` | src/substrate/shared/prompts/loader.py:69-93 | succeeds iff every entry is a string or a dictionary, then holds one parsed prompt per entry; otherwise names an invalid entry |
| `PromptLoader.ParseFile` | src/substrate/shared/prompts/loader.py:57-93 | a missing file, an unparsable file and a bad shape each raise their error; success exactly when the file parses into prompts |
| `PromptLoader.Placeholders` | src/substrate/shared/prompts/loader.py:219-220 | every name found is a word |
| `PromptLoader.PlaceholderOccurs` | src/substrate/shared/prompts/loader.py:219-220 | every placeholder found occurs in braces in the text |
| `PromptLoader.OccurrenceIsPlaceholder` | src/substrate/shared/prompts/loader.py:219-220 | every word in braces in the text is found |
| `PromptLoader.PlaceholderIff` | src/substrate/shared/prompts/loader.py:219-220 | a name is a placeholder iff it is a word and occurs in braces |
| `PromptLoader.ListOfSet` | src/substrate/shared/prompts/loader.py:224 | `list(set)`: each element once |
| `PromptLoader.PromptFileData` | src/substrate/shared/prompts/loader.py:200-204 | the written document has exactly `version`, `created` and `prompts` |
| `PromptLoader.PromptLoader.constructor` | src/substrate/shared/prompts/loader.py:42-45 | both caches start empty |
| `PromptLoader.PromptLoader.Load` | src/substrate/shared/prompts/loader.py:47-97 | a non-forced load of a cached normalised path returns the cached prompts and changes nothing; otherwise it succeeds iff the file parses, and caches the result under the normalised path; a missing file, unparseable YAML and a malformed document each give their own error |
| `PromptLoader.PromptLoader.GetPrompt` | src/substrate/shared/prompts/loader.py:125-130 | the file ends up cached iff it was cached or parses, and no other cache entry changes; an uncached file gives the load's error; otherwise the named prompt of the cached file, and `KeyError` iff it has no such prompt |
| `PromptLoader.PromptLoader.LoadPattern` | src/substrate/shared/prompts/loader.py:99-110 | a cached raw path is returned unread unless forced; otherwise the parsed document, cached under the raw path |
| `PromptLoader.PromptLoader.CreatePromptFile` | src/substrate/shared/prompts/loader.py:197-211 | writes the document and evicts only the raw path, so an extension-less path leaves the normalised entry stale |
| `PromptLoader.PromptLoader.ValidateVariables` | src/substrate/shared/prompts/loader.py:213-224 | the same cache behaviour and load errors as `get_prompt`, and `KeyError` for a missing prompt; a non-string prompt text raises `TypeError`; otherwise exactly the placeholder names of the prompt text that are not provided, each once |
| `InstanceConfig.Strs` | src/substrate/shared/instance/__init__.py:24-29 | a feature list as a list of strings, in order |
| `InstanceConfig.Entry` | src/substrate/shared/instance/__init__.py:23-31 | an entry has exactly `features` and `description` |
| `InstanceConfig.Defaults` | src/substrate/shared/instance/__init__.py:21-32 | exactly `substrate` (documentation, references, execution, workflows) and `akab` (documentation, experiments, comparison) |
| `InstanceConfig.Fallback` | src/substrate/shared/instance/__init__.py:47-50 | an undeclared type gets `["references"]` and `"<type> MCP server"` |
| `InstanceConfig.GetInstanceConfig` | src/substrate/shared/instance/__init__.py:14-50 | an external entry replaces the built-in one wholesale; without one, the built-in entry or else the fallback; a failing external source leaves the defaults |
| `InstanceConfig.BuiltInFeatures` | src/substrate/shared/instance/__init__.py:35-44 | without a usable external source both built-in types keep their built-in features |
| `InstanceConfig.FeatureIn` | src/substrate/shared/instance/__init__.py:56 | Python's `in`: a `TypeError` exactly for values without membership |
| `InstanceConfig.ShouldLoadFeature` | src/substrate/shared/instance/__init__.py:53-56 | membership of the feature in the configuration's `features`, defaulting to `[]` |
| `InstanceConfig.FallbackFeatures` | src/substrate/shared/instance/__init__.py:47-56 | an undeclared type loads exactly the references feature |
| `InstanceConfig.AppendNew` | src/substrate/shared/instance/__init__.py:73-75 | the list gains each new name once and keeps no duplicates |
| `InstanceConfig.PublicSorted` | src/substrate/shared/instance/__init__.py:66-80 | the two public types sorted are `akab`, `substrate` |
| `InstanceConfig.GetAllKnownInstances` | src/substrate/shared/instance/__init__.py:59-80 | sorted, without duplicates, always containing substrate and akab, plus exactly the external types |
| `WorkflowNavigation.Loaded` | src/substrate/features/workflow_navigation/handler.py:186-197 | at most one workflow per file, each tagged with its `source_file` |
| `WorkflowNavigation.LoadedFrom` | src/substrate/features/workflow_navigation/handler.py:186-197 | every workflow comes from a parsed mapping in a listed file other than `index.yaml`, tagged with that file's name |
| `WorkflowNavigation.Items` | src/substrate/features/workflow_navigation/handler.py:99 | iterating a list yields its items; a string yields its characters, one one-character string each, in order; an empty mapping yields nothing; a non-empty mapping fails with AttributeError (its string keys have no `.get`); a number, boolean or `None` fails with TypeError |
| `WorkflowNavigation.UsesToolInIff` | src/substrate/features/workflow_navigation/handler.py:207-216 | on dictionary steps with string tools the check cannot fail, and holds iff some step's tool contains the string |
| `WorkflowNavigation.WorkflowUsesTool` | src/substrate/features/workflow_navigation/handler.py:207-216 | the scan stops at the first step whose tool contains the string, and raises as Python does on badly typed steps |
| `WorkflowNavigation.ByCategory` | src/substrate/features/workflow_navigation/handler.py:44-45 | exactly the workflows whose `category` equals the given one |
| `WorkflowNavigation.ByToolIff` | src/substrate/features/workflow_navigation/handler.py:48-52 | the tool filter fails iff some check fails, and otherwise keeps exactly the workflows using the tool |
| `WorkflowNavigation.FilterByTool` | src/substrate/features/workflow_navigation/handler.py:48-52 | the comprehension's loop yields the tool filter |
| `WorkflowNavigation.CategoriesIff` | src/substrate/features/workflow_navigation/handler.py:56 | the categories range over all workflows, not just the filtered ones, with a missing one listed as `uncategorized` |
| `WorkflowNavigation.Listed` | src/substrate/features/workflow_navigation/handler.py:41-66 | `count` is the number of kept workflows; every kept workflow has the category asked for; without filters all are kept; a list or dictionary category makes building the set of categories raise `TypeError`, and otherwise only the tool filter can fail |
| `WorkflowNavigation.GuideEntry` | src/substrate/features/workflow_navigation/handler.py:100-114 | `step_number` is the index plus one; a string `next` becomes `next_step`, a list `conditional_next`, anything else neither |
| `WorkflowNavigation.BuildSteps` | src/substrate/features/workflow_navigation/handler.py:96-116 | one numbered entry per step in order, failing iff some step is not a dictionary |
| `WorkflowNavigation.FindWorkflow` | src/substrate/features/workflow_navigation/handler.py:86-90 | the first workflow whose name equals the given one, and none iff no workflow has it |
| `WorkflowNavigation.SuggestionEntry` | src/substrate/features/workflow_navigation/handler.py:157-162 | the suggestion's tool, reason, params and confidence |
| `WorkflowNavigation.WorkflowHandler.constructor` | src/substrate/features/workflow_navigation/handler.py:16-20 | the workflow cache starts unset |
| `WorkflowNavigation.WorkflowHandler.LoadAll` | src/substrate/features/workflow_navigation/handler.py:174-205 | the cached list once there is one; otherwise the directory's workflows, cached, and `[]` without caching for a missing directory |
| `WorkflowNavigation.WorkflowHandler.GetWorkflows` | src/substrate/features/workflow_navigation/handler.py:22-66 | the listing of the loaded workflows under the category and tool filters |
| `WorkflowNavigation.GuideOf` | src/substrate/features/workflow_navigation/handler.py:96-123 | the guide succeeds iff the steps iterate and every step is a dictionary; otherwise the iteration's error or `AttributeError`; on success the workflow, one numbered entry per step, their count and the tags |
| `WorkflowNavigation.WorkflowHandler.GetWorkflowGuide` | src/substrate/features/workflow_navigation/handler.py:72-123 | the first workflow with that name, its numbered steps, `total_steps` equal to their count, and its tags; `ValueError` iff no workflow has that name; otherwise exactly the guide of the first workflow with that name, error included |
| `WorkflowNavigation.SuggestionEntries` | src/substrate/features/workflow_navigation/handler.py:155-162 | one dictionary per suggestion, in order |
| `WorkflowNavigation.SuggestNextStep` | src/substrate/features/workflow_navigation/handler.py:129-168 | the navigation engine's suggestions for the tool, in order and with their confidence; `context_used` is the context's truthiness |
| `Documentation.DefaultDoc` | src/substrate/features/documentation/handler.py:233-250 | the generated document has exactly version, name, description, summary and usage, names the instance and describes it as `<Title> MCP server` |
| `Documentation.RequestedType` | src/substrate/features/documentation/handler.py:61-62 | a missing type defaults to the instance type; a given one, even empty, is kept |
| `Documentation.GetDocumentation` | src/substrate/features/documentation/handler.py:45-164 | external, then internal YAML, then legacy Markdown, the first that has the type winning; a YAML file that fails to parse gives the error response |
| `Documentation.NotFoundIff` | src/substrate/features/documentation/handler.py:115-154 | with no source holding the type, generated documentation comes back iff the type is the instance's own, and otherwise an error |
| `Documentation.DefaultTypeNeverMissing` | src/substrate/features/documentation/handler.py:61-124 | asking for no type fails only when the instance's own YAML file does not parse |
| `Documentation.Respond` | src/substrate/features/documentation/handler.py:70-164 | found documentation is a success response whose data holds the content, type, source and format; anything else is an error response whose data holds the error and its details; both name the server |
| `Documentation.EntryFor` | src/substrate/features/documentation/handler.py:180-209 | the entry of a type comes from the first source that has it |
| `Documentation.AddEntries` | src/substrate/features/documentation/handler.py:179-210 | one source's loop adds each of its types that the earlier sources lack, once, keeping types unique |
| `Documentation.ListDocumentation` | src/substrate/features/documentation/handler.py:166-225 | every type of every source exactly once, from the first source that has it, sorted by type, with `count` the number of entries and the three availability flags |
| `Documentation.SortKeepsUnique` | src/substrate/features/documentation/handler.py:216 | sorting keeps the entries and their unique types |

## Left out

- Concurrency: the asyncio background tasks of the sampling managers and of `ProgressTracker` are not modelled. Only the body of the expiry sweep is a method. The stores' read-then-write races are not modelled either, because every method runs alone.
- Time: `time.time()` and `datetime.now()` are parameters, as integer or real seconds plus an ISO string where one is stored. ISO formatting itself is not modelled.
- Randomness: fresh UUIDs and request ids are parameters.
- Serialisation: YAML and JSON encoding and decoding are abstracted. A file is a parsed mapping or `Unparseable`, and a parse failure is that case.
- Filesystem: `glob`/`rglob` pattern semantics, directory creation and removal, and pathlib suffix corner cases are not modelled. A directory listing is a map or a sequence given to the model.
- Floating point: confidences, durations and progress are reals. Where the code formats a float into text, the text is a parameter.
- Server wiring: FastMCP registration, stdio, the `tool.py` modules and the singletons of `shared/instances` are not modelled.
- External code: the network LLM clients of `shared/api` and the external configuration loader are not modelled. The loader's answers are parameters. Its listing of documentation types is a set, since it only deduplicates and sorts file stems.
- Logging: tracebacks are parameters, and `logger.isEnabledFor(DEBUG)` is the parameter `debug`.
- `src/utils.py`: `format_duration` and `format_size` format floats, `hash_content` needs SHA-256, `generate_id` is random, `retry_async` sleeps with float backoff and `Timer` reads the wall clock. None of these is modelled.
- `ModelRegistry`: `get_scrambled_models` needs SHA-256, and `list_providers` and `get_summary` return `list(set(...))` in an unspecified order. None of these is modelled.
- `PromptLoader`: `Prompt.format` depends on `str.format` semantics, and `_resolve_path` and `list_prompts` probe the filesystem. None is modelled. A prompt's `source_file` is the normalised path rather than the path the resolver found.
- `PromptLoader.ParsePrompts`: a map has no order, so when several prompts are invalid the model may name any of them. Python names the first in file order.
- `PromptLoader.PromptLoader.ValidateVariables`: `\w` is modelled on ASCII letters, digits and `_` only.
- `Utils.FlattenDict`: when two leaves share a path, Python keeps the later one in insertion order. A map does not record that order, so the model returns `None` for such inputs.
- `WorkflowNavigation.CategoriesIff`: `list(set(...))` has no defined order, so the categories are a set. Python's set also merges `True`, `1` and `1.0`, which the model keeps apart.
- `Errors.HandleErrors`: the handler callables are given as the responses they produce. The decorator's signature names `Callable`, which `src/errors.py` does not import (line 5). Importing the module as written therefore fails with a `NameError`. The model describes the decorator as evidently meant.
- `Documentation.ListDocumentation`: no source can raise in the model, so the branch that turns an exception into an error response is not modelled.
- `VersionedRefStore.Key`: pathlib collapses `a//b` to `a/b` and drops `.` components (`a/./b` is `a/b`); the model keeps such names as written, so it treats them as different files where Python finds one.
- `YamlRefStore.Key`: the same pathlib collapsing of `//` and `/./` is not modelled.
- `SanitizingRefStore.Key`: the same pathlib collapsing of `//` and `/./` is not modelled.
- `Documentation.DefaultDoc`: `str.upper()` and `str.title()` are modelled on ASCII letters only; Python also maps other letters, some to several characters (`"ß".upper()` is `"SS"`).
- `Utils.ReplaceInvalid`: `re.sub` reads backslash escapes and group references in the replacement (`\n`, `\g<0>`); the model inserts the replacement literally, which agrees with Python for a replacement without a backslash, such as the default `_`.
- `Utils.SanitizeFilename`: inherits the literal replacement of `Utils.ReplaceInvalid`.
- `VersionedRefStore.PriorOf`: Python floats are reals here, so `version + 1` on a float is exact.
- `SubstrateErrors.NotFoundCall`: covers calls with at most two positional strings, the forms this code base makes; a third positional argument would be taken as `suggestions`.
- `Errors.FormatErrorResponse`: the pydantic `ErrorInfo` round trip is a plain copy of the error's fields.
- `ModelRegistry.LoadFromEnvironment`: the environment is a sequence of pairs in `os.environ` order, so the last declaration of a model wins as in the code.

## Findings

| source | as written | input that shows it | evidently intended | confidence | as-written member | corrected member |
|---|---|---|---|---|---|---|
| src/substrate/components.py:306-307 | `NotFoundError(f"...")` with one argument, but the imported class takes `resource_type` and `resource_id` | reading any reference that does not exist | a not-found error naming the reference | high, not executed | `VersionedRefStore.MissingRefErrorAsWritten` | `VersionedRefStore.MissingRefErrorCorrected` |
| src/substrate/components.py:343-344 | the same one-argument `NotFoundError` call in `delete_ref` | deleting any reference whose YAML file does not exist | a not-found error naming the reference | high, not executed | `VersionedRefStore.MissingRefErrorAsWritten` | `VersionedRefStore.MissingRefErrorCorrected` |
| src/substrate/components.py:397-398 | the same one-argument `NotFoundError` call in `get_ref_metadata` | the metadata of any reference that does not exist | a not-found error naming the reference | high, not executed | `VersionedRefStore.MissingRefErrorAsWritten` | `VersionedRefStore.MissingRefErrorCorrected` |
| src/substrate/features/references/handler.py:171-172 | the `list` branch reads `prefix`, which is bound only in the create/update branch | `suggest_next_actions(ref, "list")` for any `ref` | suggest drilling into the listed prefix | high, not executed | `ReferenceHandler.ListAsWrittenFails` | `ReferenceHandler.ListSuggestsDrillDown` |
| src/utils.py:68 | `text[:max_length - len(suffix)]` with a negative bound counts from the end | `truncate_string("abcdef", 1)` gives `"abcd..."`, 7 characters | never longer than `max_length` | medium, not executed | `Utils.TruncateOverLimitAsWritten` | `Utils.TruncateClamped` |
