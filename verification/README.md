# Dojo subnet task handling, modelled in Dafny

This project models the task-handling core of the Dojo subnet. The subnet
collects human feedback on model completions.

- A **validator** sends a feedback request (a prompt, several model
  completions, and criteria such as scores or a ranking) to its **miners**.
- Each miner creates a task on the Dojo worker platform.
- The validator later fetches the workers' results. It folds them into an
  average rank and score per model, and stores everything in a database.

The model covers these pieces:

- the translations between protocol objects and database records
  (`database/mappers.py`);
- the score aggregation and completion update of the task tracker
  (`commons/dojo_task_tracker.py`);
- the task queries and updates over the feedback-request table
  (`commons/orm.py`);
- the HTML obfuscation helpers, including the XOR-then-Base64 encoder
  (`commons/obfuscation/obfuscation_utils.py`), with Base64 as in section 4
  of RFC 4648;
- the Dojo API client's request serialisation and retry loops
  (`commons/human_feedback/dojo.py`);
- the miner simulator's store-then-consume-once key/value store
  (`simulator/miner.py`);
- the dataset row rules and the circular iterator (`commons/dataset.py`);
- the flattening of the validator state into rows, and the score upsert
  (`commons/data_manager.py`);
- the synthetic-task script's duplicate-model renaming and file
  obfuscation (`scripts/create_synthetic_task.py`);
- the validator simulator's batched fan-out (`simulator/validator.py`);
- the 3D-generation endpoint's sanitisation and its mapping from error to
  HTTP status (`commons/api/threed_gen.py`).

Outside effects are made explicit:

- The database is an in-memory table (a `seq` of rows held by a class).
- Redis is a `map` field.
- The clock is a `now` parameter.
- Each random draw is a parameter function that gives the raw value of
  the i-th draw, reduced below the bound the library draws under.
- HTTP exchanges are sequences of per-attempt outcomes.
- Library calls (`minify_html`, BeautifulSoup, `jsmin`, JSON parsing,
  pydantic validation, the dendrite) are function parameters.

Each core file is one module: `Mappers`, `TaskTracker`, `Orm`,
`Obfuscation` (which uses `Base64`), `DojoApi`, `MinerSim`, `Dataset`,
`DataManager`, `SyntheticTask`, `ValidatorSim` and `ThreedGen`. `Common`
holds the option and result types, decimal rendering, ASCII case mapping
and insertion-ordered dictionaries. `Protocol` holds the protocol types
several files share.

`dojo/protocol.py` is not part of this model; its types are reconstructed
from how the core files use them.

## Model

| member | source | states |
|---|---|---|
| Mappers.MapCriteriaTypeToEnum | database/mappers.py:110-117 | Score maps to SCORE, MultiSelect to MULTI_SELECT; Ranking and MultiScore give the unknown-criteria error |
| Mappers.GetCriteriaConfig | database/mappers.py:120-130 | Score keeps exactly its min and max, MultiSelect exactly its options, any other kind gets an empty config |
| Mappers.MapCriteria | database/mappers.py:70-78 | one criterion per criteria type, in order, each with the enum and config of its type; fails exactly when some type has no column value, with the first such error |
| Mappers.GroundTruthInputs | database/mappers.py:83-96 | one record per (model id, rank) item in order, the model id serving as both obfuscated and real id; empty for an empty ground truth |
| Mappers.MapTaskSynapseToValidatorTask | database/mappers.py:49-107 | one completion input per completion response, in order, each with the synapse's task id and the response's model, criteria only when present; the task is unprocessed; a Ranking or MultiScore criterion on any response fails the whole mapping |
| Mappers.MapTaskSynapseToMinerResponse | database/mappers.py:133-157 | fails when the hotkey, the coldkey or the Dojo task id is missing or empty; otherwise copies exactly those plus the validator task id |
| Mappers.MapCriteriaTypeToModel | database/mappers.py:160-196 | each criteria kind is stored with its type, the parent id and the fields it owns, and reading the row back gives the same criteria object |
| Mappers.MapCriteriaTypeModelToCriteriaType | database/mappers.py:199-226 | missing options read as the empty list and missing bounds as 0.0; a kind outside the four is an error |
| Mappers.MapCompletionResponseToModel | database/mappers.py:229-240 | the stored row keeps every field of the completion except its own criteria |
| Mappers.MapParentFeedbackRequestToModel | database/mappers.py:243-264 | fails without a dendrite hotkey, without an expiry, or with an expiry before `now`; otherwise a parentless row of the dendrite's hotkey |
| Mappers.MapChildFeedbackRequestToModel | database/mappers.py:267-289 | fails without an axon hotkey, without a parent id or without a Dojo task id; otherwise a row of the axon's hotkey under the parent |
| Mappers.ReadCriteria | database/mappers.py:316-319 | all stored criteria read back in order, or the error of the first unknown kind |
| Mappers.GroundTruthDictLastWins | database/mappers.py:338-340 | in the built ground truth every obfuscated id holds the rank of the last row naming it, and no other id appears |
| Mappers.LastRankOverrides | database/mappers.py:338-340 | a later row for the same obfuscated id overrides an earlier one, whatever lies between |
| Mappers.GroundTruthOf | database/mappers.py:338-340 | the loop builds the ground-truth dictionary that the last-wins rule describes |
| Mappers.FeedbackRequestOf | database/mappers.py:297-371 | no completions is an error; an unknown criteria kind is an error; a miner row puts its hotkey on the axon with no ground truth, a validator row puts it on the dendrite with the ground truth |
| Mappers.FeedbackRequestOfContent | database/mappers.py:297-367 | a successful mapping carries the row's prompt, ids, expiry, completions in order and criteria |
| Mappers.MapFeedbackRequestModelToFeedbackRequest | database/mappers.py:297-371 | the imperative mapping with its ground-truth loop gives the same result as the functional one |
| TaskTracker.DojoTaskTrackerClass.New | commons/dojo_task_tracker.py:23-26 | the first call creates the instance and every later call returns that same instance |
| TaskTracker.KindKeysMembership | commons/dojo_task_tracker.py:174-190 | a model id is an output key exactly when some item of some entry of that type translates to it, through the obfuscated-to-real map with the id itself as fallback |
| TaskTracker.ItemsKeysMembership | commons/dojo_task_tracker.py:179-190 | a translated key comes from exactly the items whose id translates to it |
| TaskTracker.KeysNeedCount | commons/dojo_task_tracker.py:183-197 | a key exists only if at least one entry of its type was counted, so the division never divides by zero |
| TaskTracker.OtherKindsIgnored | commons/dojo_task_tracker.py:174-191 | an entry of another type moves no total, no count and no key set |
| TaskTracker.AveragesAreTotalsOverCount | commons/dojo_task_tracker.py:184-197 | every average is the total over all entries of its type divided by the number of such entries, not by the number naming the model |
| TaskTracker.AddItems | commons/dojo_task_tracker.py:179-183 | the inner loop adds each item's value to the sum of its translated id and touches no other key |
| TaskTracker.FoldEntries | commons/dojo_task_tracker.py:175-191 | after the loop, the accumulated key sets, sums and counts are those of the specification functions |
| TaskTracker.DivideAll | commons/dojo_task_tracker.py:194-197 | every accumulated sum is divided by the count, key by key, with the same keys |
| TaskTracker.DividedSumsAreAverages | commons/dojo_task_tracker.py:193-197 | dividing the folded sums gives the specified average map |
| TaskTracker.CalculateAverages | commons/dojo_task_tracker.py:167-199 | returns the average rank over ranking entries and the average score over multi-score entries, keyed by translated model id |
| TaskTracker.Trunc | commons/dojo_task_tracker.py:145-147 | Python's `int` on a float truncates toward zero |
| TaskTracker.UpdatedCompletion | commons/dojo_task_tracker.py:142-149 | the rank becomes the truncated average rank and the score the average score, each only when the model has one; nothing else changes |
| TaskTracker.UpdateCompletions | commons/dojo_task_tracker.py:142-149 | the in-place loop leaves each completion as the update rule says, in order |
| TaskTracker.ProcessMinerResponses | commons/dojo_task_tracker.py:109-149 | the first response lacking an axon hotkey or a Dojo task id stops processing and leaves it and all later ones untouched; a response without results is skipped; every earlier one has its completions updated |
| Orm.InsertNewestFirst | commons/orm.py:110-116 | inserting into a newest-first list keeps it newest-first and keeps the multiset of rows |
| Orm.SortNewestFirst | commons/orm.py:110-116 | `created_at` descending: the result is newest-first and a permutation of the input |
| Orm.PagesConcat | commons/orm.py:108-116 | the skip/take batches cover the ordered tasks exactly, in order |
| Orm.PagesSizes | commons/orm.py:108-116 | every batch is non-empty with at most `batch_size` rows, and there are ceil(count / batch_size) of them |
| Orm.BatchesCoverUnprocessedTasks | commons/orm.py:65-116 | every row of the batches is an unprocessed unexpired task of a given hotkey (case-insensitive) with a child, and each such task appears as often as in the table, newest first |
| Orm.Ids | commons/orm.py:119 | the ids of a batch, in order |
| Orm.ChildrenAreUnprocessedResponses | commons/orm.py:121-147 | the miner responses attached to a task are exactly the unprocessed rows whose parent is that task, each as often as in the table |
| Orm.MinerResponsesCarryHotkeys | commons/orm.py:136-147 | each mapped miner row names its miner's hotkey on the axon |
| Orm.BuildEntries | commons/orm.py:130-153 | the responses list pairs each validator request with its mapped miner responses, in batch order, or fails with the first mapping error |
| Orm.BuildPage | commons/orm.py:110-153 | what one batch yields is the specified entry list for that batch |
| Orm.YieldBatches | commons/orm.py:108-159 | every batch is yielded in order flagged `True`, then one empty batch flagged `False`; a mapping error stops the generator |
| Orm.TaskStore.GetUnexpiredTasks | commons/orm.py:34-159 | no unprocessed task raises `UnexpiredTasksAlreadyProcessed` when processed ones exist and `NoNewUnexpiredTasksYet` otherwise; else the yield sequence above over the selected tasks |
| Orm.TaskStore.MarkTasksProcessedByRequestIds | commons/orm.py:162-183 | an empty list changes nothing; otherwise exactly the rows whose id is listed become processed, all else unchanged, and the processed count never drops |
| Orm.TaskStore.GetTaskByRequestId | commons/orm.py:186-226 | with the children loaded together with their completions and criteria: `None` unless exactly one parentless row has the request id, it has children and every row maps; then that request with its mapped children |
| Orm.TaskStore.GetTaskByRequestIdAsWritten | commons/orm.py:186-226 | with `child_requests` included one level deep the children have no completions, so mapping the first one raises and the result is always `None` |
| Orm.ChildRelationsLost | commons/orm.py:189-216 | one validator row with one answered miner row: the lookup with the children's relations finds the task, the one-level include returns `None` |
| Orm.TaskStore.NumProcessedTasks | commons/orm.py:229-232 | never more than the number of rows, and zero exactly when no parentless row is processed |
| Orm.RowKeys | commons/orm.py:273-278 | the (request id, hotkey) key of every row, in table order |
| Orm.FirstIndex | commons/orm.py:273-278 | `find_first`: the position of the first row with the key, `None` exactly when no row has it |
| Orm.MinerHotkeys | commons/orm.py:250-256 | the axon hotkey of each response, in order |
| Orm.TaskStore.CollectHotkeys | commons/orm.py:250-256 | the loop succeeds exactly when every response names a hotkey, and then returns them in order |
| Orm.DropCompletions | commons/orm.py:244-246 | `delete_many` removes exactly the completions whose owner id is in the set and changes nothing else |
| Orm.DropKeepsKeys | commons/orm.py:244-267 | deleting completions changes no row's id, request id or hotkey |
| Orm.TaskStore.DropCompletionsOf | commons/orm.py:263-267 | the table after the deletion is the specified one |
| Orm.MapCompletions | commons/orm.py:284-289 | one completion row per response completion, in order, owned by the given row |
| Orm.AppendAt | commons/orm.py:283-289 | the response's completions are appended to the chosen row only |
| Orm.AppendKeepsRest | commons/orm.py:283-289 | storing completions under one row changes no other field of any row |
| Orm.AppendAddsNext | commons/orm.py:270-289 | storing the next response's completions under the row its key first lands on keeps each row equal to the specified additions |
| Orm.AppendStep | commons/orm.py:270-289 | the same step extends the appended-state invariant by one response |
| Orm.AppendAll | commons/orm.py:270-289 | the loop stores each response's completions under the first row of its request and hotkey, stopping at the first response no row matches |
| Orm.AddedOnlyToAnswered | commons/orm.py:270-289 | only a row of the request answered by one of the responses gets new completions |
| Orm.ClearedAnswered | commons/orm.py:244-267 | an answered row loses all its completions to the two deletions |
| Orm.ClearedOthers | commons/orm.py:244-267 | a row that is not answered keeps its completions unless its own id is the request id |
| Orm.UpdateReplacesCompletions | commons/orm.py:241-289 | after a successful update, every answered row of the request holds exactly the new completions, every other row is as it was, except a row whose id equals the request id |
| Orm.TaskStore.UpdateMinerCompletionsByRequestId | commons/orm.py:235-297 | returns `True` exactly when every response has a hotkey and a matching row; then the table is the cleared table with the new completions stored |
| Base64.ValueOfCharOf | commons/obfuscation/obfuscation_utils.py:27 | the alphabet character of every 6-bit value decodes back to that value |
| Base64.Encode | commons/obfuscation/obfuscation_utils.py:27 | `b64encode`: four characters for every group of up to three bytes, so a multiple of four |
| Base64.EncodeLength | commons/obfuscation/obfuscation_utils.py:27 | the encoding of n bytes has 4·ceil(n/3) characters |
| Base64.DecodeEncode | commons/obfuscation/obfuscation_utils.py:27 | decoding what `Encode` wrote gives back the bytes |
| Obfuscation.XorTwice | commons/obfuscation/obfuscation_utils.py:27 | XOR with the same key twice is the identity |
| Obfuscation.PyXorTwice | commons/obfuscation/obfuscation_utils.py:27 | the same for Python's XOR with any integer key, when the first XOR is non-negative |
| Obfuscation.SimpleEncrypt | commons/obfuscation/obfuscation_utils.py:26-27 | succeeds exactly when every code XOR key is a byte (so never for a negative key and non-empty text), with 4·ceil(n/3) characters |
| Obfuscation.EncryptDecrypt | commons/obfuscation/obfuscation_utils.py:26-27 | Base64-decoding and XORing again with the key recovers the character codes |
| Obfuscation.GenerateRandomString | commons/obfuscation/obfuscation_utils.py:19-23 | `length` characters (one for a length below 1), an ASCII letter first and letters or digits after |
| Obfuscation.AddEnclosingComments | commons/obfuscation/obfuscation_utils.py:92-97 | the content unchanged between `<!-- `, 16 random characters, ` -->` and a newline, and a newline, `<!-- `, 16 random characters and ` -->` |
| Obfuscation.StripAddComments | commons/obfuscation/obfuscation_utils.py:92-97 | removing the two comments gives the content back |
| Obfuscation.Sample | commons/obfuscation/obfuscation_utils.py:54 | `random.sample` draws k elements without replacement: a sub-multiset of the population, all of it when k is its size |
| Obfuscation.SampleDistinct | commons/obfuscation/obfuscation_utils.py:54 | what is drawn from distinct elements is distinct |
| Obfuscation.SampleFrom | commons/obfuscation/obfuscation_utils.py:54 | sampling from dict items raises `TypeError`; from a list it draws as above |
| Obfuscation.UpdateAppends | commons/obfuscation/obfuscation_utils.py:55 | `dict.update` with new, distinct keys appends the items in order |
| Obfuscation.SampledParams | commons/obfuscation/obfuscation_utils.py:53-55 | the sampled options are distinct, all true and never `keep_closing_tags` |
| Obfuscation.MinifyParamsAreOptionItems | commons/obfuscation/obfuscation_utils.py:38-50 | the eleven listed options are distinct, all true and none is `keep_closing_tags` |
| Obfuscation.SelectMinifyParams | commons/obfuscation/obfuscation_utils.py:53-55 | fails on dict items; from a list, the parameters are `keep_closing_tags` plus five distinct listed options |
| Obfuscation.RandomAttributeKeepsNames | commons/obfuscation/obfuscation_utils.py:102-103 | no attribute name is lost; below the 0.3 chance the new attribute carries its value, otherwise the tag is unchanged |
| Obfuscation.Soup.AddRandomAttributes | commons/obfuscation/obfuscation_utils.py:100-104 | each tag keeps its name, text and every attribute name, and gains a random attribute exactly when its coin is below 0.3 |
| Obfuscation.Dummies | commons/obfuscation/obfuscation_utils.py:108-113 | `count` hidden divs, each with a 20-character text |
| Obfuscation.HiddenDiv | commons/obfuscation/obfuscation_utils.py:109-111 | a `div` styled `display:none;` holding the text |
| Obfuscation.Soup.AddDummyElements | commons/obfuscation/obfuscation_utils.py:107-115 | with a body, 1 to 5 hidden divs are appended at its end and nothing else changes; without one the call fails and the tree is unchanged |
| Obfuscation.Soup.ShuffleAttributes | commons/obfuscation/obfuscation_utils.py:117-121 | every tag keeps its name, text and the multiset of its attribute pairs, hence every attribute name; only their order changes |
| Obfuscation.PermutedKeys | commons/obfuscation/obfuscation_utils.py:120 | reordering a dictionary's pairs loses no key |
| Obfuscation.LayoutKeeps | commons/obfuscation/obfuscation_utils.py:100-121 | a technique that keeps every tag's name, text and attribute names keeps the tree's layout against the parsed document |
| Obfuscation.LayoutDummies | commons/obfuscation/obfuscation_utils.py:107-115 | inserting hidden divs at the end of the body of a kept tree lays them out after the body's parsed tags and before the rest |
| Obfuscation.ApplyTechnique | commons/obfuscation/obfuscation_utils.py:87-88 | one technique keeps the layout; dummy elements, applied to a tree without any, fail exactly when there is no body and otherwise add `dummy_count` divs at its end |
| Obfuscation.ApplyTechniques | commons/obfuscation/obfuscation_utils.py:77-89 | the drawn number of distinct techniques; it fails exactly when dummy elements are chosen and the page has no body; otherwise it renders the parsed tags in order, each keeping its name, text and attribute names, with the dummy divs (a `div` with a `style` attribute and 20 characters of text) at the end of the body when they were chosen |
| Obfuscation.MaybeCommented | commons/obfuscation/obfuscation_utils.py:66-68 | below the 0.5 chance the content comes back between two comments that strip off to give it back; otherwise unchanged |
| Obfuscation.ObfuscateWith | commons/obfuscation/obfuscation_utils.py:36-74 | any failure (sampling, minifying, the techniques) returns `jsmin` of the input; otherwise the techniques, with all their guarantees, applied to the minifier's output, wrapped in comments when the coin is below 0.5 |
| Obfuscation.ObfuscateAsWritten | commons/obfuscation/obfuscation_utils.py:36-74 | as written, the result is always `jsmin` of the input |
| Obfuscation.Obfuscate | commons/obfuscation/obfuscation_utils.py:36-74 | with a list to sample from, the minifier sees `keep_closing_tags` plus five distinct options; when it succeeds the techniques are applied to its output and the result is the printed tree, perhaps between comments; a failure of either step gives `jsmin` of the input |
| Obfuscation.ObfuscateHtmlAndJs | commons/obfuscation/obfuscation_utils.py:128-143 | on timeout the original content comes back unchanged; otherwise, with `obfuscate` as written, `jsmin` of it |
| Obfuscation.ObfuscateHtmlAndJsCorrected | commons/obfuscation/obfuscation_utils.py:128-143 | on timeout the original content; otherwise what the corrected `obfuscate` returns, with the same guarantees |
| Obfuscation.Basename | commons/obfuscation/obfuscation_utils.py:186 | the part after the last `/` |
| Obfuscation.LastDot | commons/obfuscation/obfuscation_utils.py:187 | the index of the last `.`, `None` exactly when there is none |
| Obfuscation.SplitExt | commons/obfuscation/obfuscation_utils.py:187 | stem and extension concatenate to the name; the extension starts at the last dot that is not part of a leading run of dots |
| Obfuscation.OutputFileName | commons/obfuscation/obfuscation_utils.py:186-188 | an explicit non-empty `-o` wins; otherwise stem + `_obfuscated` + extension of the basename |
| Obfuscation.OutputNameRecoversBasename | commons/obfuscation/obfuscation_utils.py:186-188 | removing `_obfuscated` from a default output name gives back the input's basename |
| DojoApi.ParseInt | commons/human_feedback/dojo.py:27 | decimal digits are read as their value |
| DojoApi.GetMaxResultsParam | commons/human_feedback/dojo.py:22-27 | 1 when the variable is unset or empty, its value when it is digits, an error when it holds a character that is neither digit nor sign |
| DojoApi.MaxResultsOfDecimal | commons/human_feedback/dojo.py:22-27 | a count written out in decimal is read back as that count |
| DojoApi.SerializeTaskRequest | commons/human_feedback/dojo.py:96-108 | the prompt, the task type upper-cased, and one model/completion entry per completion response, in order |
| DojoApi.Backoff | commons/human_feedback/dojo.py:155 | the base wait after failed attempt k is `BASE_DELAY`·2^k |
| DojoApi.BackoffTotal | commons/human_feedback/dojo.py:154-160 | the first n waits add up to 2^n − 1 seconds |
| DojoApi.WaitsBounded | commons/human_feedback/dojo.py:148-160 | the waits actually slept never exceed the full back-off schedule |
| DojoApi.CreateTask | commons/human_feedback/dojo.py:110-178 | at most 5 attempts; the task ids of the first 200 response with a body; a final raising attempt fails tagged HTTP, JSON decode or unexpected error with the last text and JSON; five pass-through responses give the trailing failure; one wait after each raising attempt but the last |
| DojoApi.GetTaskResultsByTaskId | commons/human_feedback/dojo.py:53-93 | the first attempt that does not raise decides: its task results when present and non-empty, else `None`; `None` after 5 raising attempts, with a wait after each but the last |
| MinerSim.FeedbackKey | simulator/miner.py:53 | `feedback:` followed by the request id |
| MinerSim.FeedbackKeyInjective | simulator/miner.py:53 | different requests are stored under different keys |
| MinerSim.MinerSim.constructor | simulator/miner.py:17-32 | an empty store and an empty hotkey map |
| MinerSim.MinerSim.ForwardFeedbackRequest | simulator/miner.py:34-67 | without a dendrite hotkey or completions nothing changes and the synapse comes back; otherwise the copy with emptied completions and the original ground truth is stored under its key, the synapse comes back with the request id as Dojo task id and an empty ground truth, and is recorded under the hotkey |
| MinerSim.ResultFor | simulator/miner.py:86-102 | exactly one `COMPLETED` result for the task, with the first criteria type and the stored ground truth as value; none exactly when the stored request has no criteria |
| MinerSim.MinerSim.ForwardTaskResultRequest | simulator/miner.py:69-116 | without a task id or a stored entry the synapse and the store are unchanged; otherwise the answer carries the one result and the entry is deleted; when no result can be built the entry stays |
| MinerSim.AskTwice | simulator/miner.py:76-106 | a second request for the same task comes back unchanged, with no result added |
| MinerSim.StoreThenAnswer | simulator/miner.py:34-111 | a stored request is answered once, with its own ground truth, although the returned synapse had its ground truth cleared |
| Dataset.ShpPair | commons/dataset.py:34-39 | tied rows are dropped; with `labels == 1` A is chosen over B, otherwise B over A; chosen and rejected are the two replies |
| Dataset.ShpPairSymmetric | commons/dataset.py:34-39 | listing the replies the other way round, with the 0/1 label flipped to match, gives the same pair |
| Dataset.WebgptPair | commons/dataset.py:50-65 | tied rows are dropped; the strictly better answer is chosen, and each quote follows its answer |
| Dataset.WebgptPairSymmetric | commons/dataset.py:50-65 | the pair does not depend on which answer is listed first |
| Dataset.OasstPrompt | commons/dataset.py:82-92 | kept exactly when the parent id is falsy and the role is `prompter`, reduced to its text |
| Dataset.Stream | commons/dataset.py:34-92 | a filter-and-map stream has at most one item per row, and none when every row is filtered out |
| Dataset.StreamAppend | commons/dataset.py:34-92 | the stream of consecutive parts of a dataset is the concatenation of their streams |
| Dataset.StreamFromRows | commons/dataset.py:34-92 | every stream item comes from some row of the dataset, mapped |
| Dataset.StreamSuffixFromRows | commons/dataset.py:105-109 | what remains of a dataset's iterator after some items holds only mapped rows |
| Dataset.BatchFromRows | commons/dataset.py:105-132 | when the reload is the stream of the dataset's rows and the iterator holds mapped rows, every item a batch draws going round is a mapped row, so a tied comparison never reaches a batch |
| Dataset.Reload | commons/dataset.py:115-121 | any key other than the three evaluation datasets gets nothing on exhaustion |
| Dataset.Step | commons/dataset.py:114-122 | one `next` fails exactly when the iterator is exhausted and the reload is empty |
| Dataset.DrawWithoutReload | commons/dataset.py:112-122 | without a reload, n draws succeed exactly when n items remain, and are those items in order |
| Dataset.DrawCircular | commons/dataset.py:112-122 | with a non-empty reload, draws never fail and go round the dataset in order |
| Dataset.CircularFromRest | commons/dataset.py:112-122 | a draw from what remains keeps the circular-order invariant |
| Dataset.CircularFromReload | commons/dataset.py:115-122 | a draw after a reload keeps the circular-order invariant |
| Dataset.NextCircular | commons/dataset.py:112-122 | a missing key raises `KeyError`; otherwise the next item, rebuilding an exhausted evaluation dataset and raising `StopIteration` for any other key |
| Dataset.DrawMany | commons/dataset.py:132 | n calls of `next_circular` on one key give the n items the draw specification gives |
| Dataset.BatchKey | commons/dataset.py:128-129 | the chosen key is one of the three evaluation datasets |
| Dataset.GetBatch | commons/dataset.py:127-132 | 32 items from the one chosen dataset, in order and going round it when it runs out; the other datasets are untouched |
| Dataset.GetPrompts | commons/dataset.py:137-141 | the texts of the next n prompts, in iterator order, or `StopIteration` when fewer remain |
| DataManager.DataManagerClass.New | commons/data_manager.py:31-34 | the first call creates the instance and every later call returns that same instance |
| DataManager.Guard | commons/data_manager.py:45-46 | an existing instance whose step is 0 returns at once; one whose step was never set raises `AttributeError` |
| DataManager.HotkeyRows | commons/data_manager.py:63-70 | one row per model pair of the request, carrying the task's expiry; fails when the task has no expiry and the request has models |
| DataManager.RequestRows | commons/data_manager.py:68-70 | the rows of one request, miner by miner; succeeds exactly when every lookup does, with hotkeys·models rows, each carrying its expiry and model pair |
| DataManager.FlattenRowsSpec | commons/data_manager.py:59-71 | the flattening succeeds exactly when every lookup does, then gives the sum over requests of hotkeys·models rows, each carrying its task's expiry and one model pair of its request |
| DataManager.AllFoundSplit | commons/data_manager.py:64-70 | every lookup succeeding is the first request's lookups and the rest's |
| DataManager.AppendNew | commons/data_manager.py:74-76 | `skip_duplicates`: the table is a prefix of the result, every row ends up present, and only new rows are added |
| DataManager.UpsertScore | commons/data_manager.py:78-94 | the first score record is updated in place, keeping its id and the other records, when one exists; otherwise a single record is created; either way the first record holds the scores |
| DataManager.ValidatorSaveAsWritten | commons/data_manager.py:37-102 | as written no table ever changes, and a call that passes the guards with some data or non-zero scores ends logging `NameError` |
| DataManager.ValidatorSave | commons/data_manager.py:37-102 | empty data with all-zero scores saves nothing; a missing model map or expiry entry saves nothing; otherwise the rows are added, and the scores upserted exactly when not all zero |
| DataManager.SaveKeepsOneScore | commons/data_manager.py:78-94 | starting from at most one score record there is never more than one, and a save leaves exactly one, holding the scores |
| SyntheticTask.Renamed | scripts/create_synthetic_task.py:55-61 | `_index` is added to the model; a ranked response also gets `_rank` and keeps its completion id, any other gets `_index` on its completion id |
| SyntheticTask.RenameDuplicates | scripts/create_synthetic_task.py:47-61 | distinct model names leave the responses unchanged; otherwise every response is renamed by its index |
| SyntheticTask.RenamedDistinctWithoutRanks | scripts/create_synthetic_task.py:52-61 | when no response is ranked, the renamed model names are distinct |
| SyntheticTask.LastSegment | scripts/create_synthetic_task.py:56 | the text after the last underscore determines an underscore-free suffix |
| SyntheticTask.NatToStringInjective | scripts/create_synthetic_task.py:56 | different indices are written differently |
| SyntheticTask.TaskCriteria | scripts/create_synthetic_task.py:64-76 | a single multi-score criterion listing the models in response order, from 1.0 to 100.0 |
| SyntheticTask.ObfuscateFiles | scripts/create_synthetic_task.py:26-39 | only files whose lower-cased name ends in `.html` are replaced by the obfuscator's output; a failure on one file keeps it and the loop goes on; names never change |
| SyntheticTask.ObfuscateCompletionFiles | scripts/create_synthetic_task.py:20-39 | every code answer's files go through that pass; other completions, models and ids are unchanged |
| SyntheticTask.CreateSyntheticTasks | scripts/create_synthetic_task.py:42-115 | no synthetic data creates no task; otherwise up to three code-generation tasks with the same prompt, expiry and criteria: the renamed request, then its files obfuscated, then obfuscated again through the shared responses; a `create_task` call that fails after its retries is not caught, so the script stops after it and raises |
| ValidatorSim.CallsFor | simulator/validator.py:36-44 | one forward per axon, in order, with the same synapse, `deserialize=False` and a 12 second timeout |
| ValidatorSim.FlattenAppend | simulator/validator.py:47-50 | flattening consecutive reply lists concatenates |
| ValidatorSim.FlattenLength | simulator/validator.py:47-50 | flattening keeps every reply |
| ValidatorSim.BatchStep | simulator/validator.py:32-33 | each batch of at most 10 starts at a multiple of 10 and adds one to the batch count |
| ValidatorSim.LoggedTotal | simulator/validator.py:52-54 | the logged total `(n − 1) // 10 + 1` is ceil(n / 10), the number of batches |
| ValidatorSim.ForwardBatch | simulator/validator.py:36-46 | the forwards and replies of one batch, in axon order |
| ValidatorSim.SendShuffledRequests | simulator/validator.py:15-56 | every axon is forwarded exactly once, in order; the result is the concatenation of the per-axon replies in axon order; one progress line per batch numbered from 1 out of ceil(n / 10); no axon means no forward |
| ThreedGen.SanitizeResponse | commons/api/threed_gen.py:36-43 | a dict completion with a file name is replaced by a dict holding only that name; other completions and all other fields are unchanged; a response without a completion raises `KeyError`, one that is not a dict `TypeError` |
| ThreedGen.SanitizeIdempotent | commons/api/threed_gen.py:36-43 | sanitising twice is sanitising once |
| ThreedGen.ResponseItems | commons/api/threed_gen.py:36 | iteration succeeds for a list, an empty dict and an empty string; anything else raises `TypeError` in the loop |
| ThreedGen.SanitizeResponses | commons/api/threed_gen.py:36-43 | the loop sanitises every response in order and stops at the first exception |
| ThreedGen.PrepareData | commons/api/threed_gen.py:36-47 | no `responses` key raises `KeyError`; otherwise the same data with every response sanitised, or the first exception |
| ThreedGen.ErrorReply | commons/api/threed_gen.py:62-71 | a `KeyError` gives 400 "Invalid request data", anything else 500 "Internal server error" |
| ThreedGen.CreateThreedGenTask | commons/api/threed_gen.py:24-82 | invalid JSON gives 400, an empty body 400, an exception while reading the data 400 or 500 by its type, a validation failure 400 with its message, a sending failure 500; otherwise 200 with the validator's answer; files default to the empty list |

## Left out

- Prisma transactions: `database/client.py` is not part of this model, so `Orm.TaskStore.UpdateMinerCompletionsByRequestId` keeps what was done before a failure instead of assuming a rollback.
- Time: `now` is an integer parameter. ISO-8601 parsing, rendering and time zones are not modelled, and timestamps in results are opaque strings.
- `Orm.TaskStore.GetUnexpiredTasks` assumes the table does not change between two yields of the generator. It requires a positive `batch_size`, because `range` with step 0 raises.
- Network I/O is not modelled. This covers `get_task_results_from_miner` (dendrite and metagraph), the httpx calls of the Dojo client, `validator.send_request`, the synthetic-data API and the dendrite of the validator simulator. Their outcomes are parameters.
- `monitor_task_completions` is modelled only as the per-task block `TaskTracker.ProcessMinerResponses`. The outer `while`/`sleep` loop, the batch iteration and `ORM.get_real_model_ids` are not modelled; that function is called but not defined in `commons/orm.py`, and the obfuscated-to-real map is a parameter.
- Floating point is not modelled: averages and scores are `real`. `TaskTracker.Trunc` truncates toward zero as Python's `int` does.
- `DojoApi.Backoff`: the random jitter `random.uniform(0, 1)` is not modelled, so each wait is its base `BASE_DELAY·2^k`.
- `DojoApi.GetMaxResultsParam` reads a sign followed by digits; surrounding whitespace, underscores and non-ASCII digits, which Python's `int` also accepts, are not modelled.
- `DojoApi.CreateTask`: a status is treated as a success by `raise_for_status` exactly when it is in 200-299.
- Randomness is not modelled as a distribution. `random.choices`, `random.sample`, `random.randint` and `random.random` are parameter functions, reduced into the range the library guarantees.
- `Obfuscation.Sample` requires `k` to be at most the population size, as `random.sample` does. It models the pool algorithm's membership and multiplicity, not its exact random sequence.
- The HTML libraries are not modelled. `minify_html`, `jsmin` and BeautifulSoup's parser and printer are opaque functions, and the tag tree is a list of tags with attribute lists and a body position.
- `Obfuscation.Soup.ShuffleAttributes` builds the shuffled attribute dictionary from distinct attribute names, as a parsed tag has.
- `Obfuscation.SimpleDecrypt` is the inverse used to state the round trip. It returns character codes, since converting codes back to characters is outside Python's `simple_encrypt`.
- `Common.AsciiLower` and `Common.AsciiUpper` map ASCII letters only; Unicode case mapping is not modelled.
- `DataManager.AppendNew` treats a row as a duplicate when all its fields equal a stored row's. The table's unique key is defined in the database schema, which is not part of this model.
- The JSON round trip `json.loads(json.dumps(...))` in `validator_save` is the identity here, and scores are a sequence of reals rather than a tensor.
- `DataManager.Guard`: nothing in the class sets `step`, so an existing instance raises `AttributeError` at line 45 unless a caller sets it. `step` is modelled as an optional field for that reason.
- Dataset downloads are not modelled. Each dataset is a finite sequence of rows; `load_dataset` and the 50/50 `interleave_datasets` of the two OpenAssistant sets are left out, and the seed stream is one given sequence.
- `Dataset.GetPrompts` takes `n` explicitly; the default of 5 is the caller's.
- Redis is a map: the 10-hour expiry, connection handling and the JSON round trip of the stored request are not modelled.
- The miner's random ids and the clock are parameters of `MinerSim.MinerSim.ForwardTaskResultRequest`.
- Pydantic instances are values here. `SyntheticTask.CreateSyntheticTasks` reproduces the one aliasing effect that matters, the shared responses of the two requests, by passing the first pass's output to the second.
- `SyntheticTask.CodeGeneration`: `dojo/protocol.py` is not part of this model, so the text of `str(TaskType.CODE_GENERATION)` is taken to be "CODE_GENERATION".
- `SyntheticTask.RenamedDistinctWithoutRanks` covers only unranked responses. With ranked ones the rule does not guarantee distinct names: a model `a_5` at index 1 and a model `a` ranked 1 at index 5 both become `a_5_1`.
- `ThreedGen.CreateThreedGenTask` attaches the uploaded files by passing them to the validation parameter rather than storing them under a `files` key. JSON parsing is a parameter, and the status-200 body is the validator's answer before `jsonable_encoder`.
- `Base64.Decode` exists only to state the round trip; the core never decodes.
- Integers are unbounded; no arithmetic in the core relies on a fixed width.

## Findings

| source | as written | input that shows it | evidently intended | confidence | as-written member | corrected member |
|---|---|---|---|---|---|---|
| commons/obfuscation/obfuscation_utils.py:54 | `random.sample(minify_params.items(), 5)` samples from a dict view, which `random.sample` rejects with `TypeError` on Python 3.11 and later; the repository uses `enum.StrEnum`, so it runs on 3.11 or later | any HTML content | sample five options from a list of the items, pass them to `minify`, then apply the techniques | not executed | Obfuscation.ObfuscateAsWritten | Obfuscation.Obfuscate |
| commons/data_manager.py:74 | `Validator_State_Model` is used but never imported, so reaching line 74 raises `NameError`, which the handler at line 101 logs | any call past the guards with a non-empty task map or non-zero scores whose lookups all succeed | add the state rows, then upsert the single score record when the scores are not all zero | not executed | DataManager.ValidatorSaveAsWritten | DataManager.ValidatorSave |
| commons/orm.py:195 | `"child_requests": True` includes the children without their own `completions` and `criteria_types`, so `map_feedback_request_model_to_feedback_request` raises for the first child and the `except` at line 224 turns every lookup into `None` | `LostChildrenRows`: a validator request with one miner response that has a completion | include the children with `{"include": {"completions": True, "criteria_types": True}}` and return the mapped task | not executed | Orm.TaskStore.GetTaskByRequestIdAsWritten | Orm.TaskStore.GetTaskByRequestId |
