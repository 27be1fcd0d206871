# agsh core, modelled in Dafny

agsh ("agentic shell") is a Go program in which several roles pass typed
messages over an in-process bus to turn one line of user input into a
finished task. This project models the deterministic decision and
bookkeeping logic of those roles. It also models a small stand-alone
Python script that prints recent tech headlines from RSS feeds.

- **R1 perceiver** asks the language model to understand the input. It may
  ask the user up to two clarifying questions, then publishes a `TaskSpec`.
- **R2 planner** calibrates the plan against memory and emits a dispatch
  manifest plus one `SubTask` message per step. On a replan it merges the
  tools that GGS blocked into the constraints.
- **The subtask dispatcher** in `cmd/agsh/main.go` launches subtasks one
  sequence group at a time. Each group gets the outputs of the earlier
  groups as context. The dispatcher also caps the REPL history and builds
  the session context.
- **R3 executor** runs a bounded tool-calling loop. It has a repeat-call
  guard and routes personal-file `find` commands to Spotlight.
- **R4a agent validator** scores each result against its success criteria.
  It sends corrections and retries up to a limit, then publishes the
  outcome together with its gap trajectory.
- **R4b meta-validator** collects the outcomes of a task and applies a hard
  gate. It then either accepts the task (writing memory) or asks for a
  replan; after three replans it abandons the task.
- **R5 memory** is a LevelDB store of "megrams" with primary, index, level
  and recall keys. It has key helpers, a garbage-collection pass, a
  trust-bankruptcy pass, a C-level query and potential queries.
- **R6 auditor** checks bus boundaries, counts per-window statistics,
  detects anomalies and publishes and resets the window report.
- **R7 GGS** (goal-gradient solver) turns a replan request into
  distance D, implausibility P, budget pressure Ω, loss L and its gradient,
  picks a directive, and blocks tools on some directives.
- **Support code:** the bus with bounded drop-on-full queues, the per-task
  JSONL task log, the text helpers of the LLM client, the message details of
  the UI, and the web-search, Spotlight and workspace tool helpers.
- **`fetch_tech_news.py`** fetches each feed, keeps recent items, sorts
  them newest first, keeps the top ten and prints them.

## Model conventions

- Each source file has one Dafny module, in the file of the same name.
- Pure helpers become functions.
- Loops become methods whose loop invariants tie them to a specification
  function.
- A role's mutable state becomes a `class`. Its methods state the new state
  as a function of the old state (`State() == F(old(State()))`), and lemmas
  prove what `F` guarantees.
- Inputs the code cannot compute are parameters:
  - language-model replies, tool and shell results, clocks, UUIDs;
  - JSON codecs, regular expressions, `filepath.Clean`/`Dir`;
  - the feed parser.
- Strings are `seq<char>`.

## Model

| member | source | states |
|---|---|---|
| Ggs.ComputeD | internal/roles/ggs/ggs.go:272-294 | D is 1 with no outcomes; otherwise D is the failed-criteria count over the total criteria count, which is positive; D lies in [0,1] |
| Ggs.DistanceInUnit | internal/roles/ggs/ggs.go:272-294 | D lies in [0,1] for every outcome list, and a non-empty list has at least one criterion |
| Ggs.CriteriaBounds | internal/roles/ggs/ggs.go:276-289 | failed criteria never exceed total criteria; every outcome counts at least one criterion |
| Ggs.ScanKeywords | internal/roles/ggs/ggs.go:305-352 | the early-exit keyword scan reports true exactly when the text mentions some keyword |
| Ggs.ComputePKeyword | internal/roles/ggs/ggs.go:305-352 | the keyword fallback P lies in [0,1]; it is 0.5 with no keyword hits, above 0.5 when logical hits dominate, below 0.5 when environmental hits dominate |
| Ggs.ComputeP | internal/roles/ggs/ggs.go:363-385 | P lies in [0,1] and is 0.5 with no outcomes (classified failures first, keyword fallback otherwise) |
| Ggs.Omega | internal/roles/ggs/ggs.go:396-404 | Ω never exceeds 1 (both terms are capped) |
| Ggs.OmegaReferencePoints | internal/roles/ggs/ggs.go:396-404 | Ω is 0 at the start, w1 at the replan cap, w2 at the time budget, and 1 at both |
| Ggs.OmegaMonotone | internal/roles/ggs/ggs.go:396-404 | Ω is monotone in replans and elapsed time and stays in [0,1] |
| Ggs.LossIgnoresPAtFullBudget | internal/roles/ggs/ggs.go:414-417 | at Ω = 1 the loss no longer depends on P: L = αD + λ |
| Ggs.LossInUnit | internal/roles/ggs/ggs.go:414-417 | for D, P, Ω in [0,1] the loss L lies in [0,1] |
| Ggs.LossReferencePoints | internal/roles/ggs/ggs.go:414-417 | L equals α, λ and α+β at the corner inputs that isolate each weight |
| Ggs.GradientLabels | internal/roles/ggs/ggs.go:430-441 | each of plateau, stable, improving and worsening holds exactly under its own condition on ∇L and D |
| Ggs.DirectiveTable | internal/roles/ggs/ggs.go:461-482 | abandon exactly when Ω ≥ 0.8; below that, plateau gives break_symmetry or change_path by P, worsening with P > 0.5 gives change_approach, and anything else gives refine |
| Ggs.FailureClassTable | internal/roles/ggs/ggs.go:542-551 | the failure class is logical, environmental or mixed exactly when P is above, below or equal to 0.5 |
| Ggs.DedupProperties | internal/roles/ggs/ggs.go:491-514 | the `seen`-map dedup has no duplicates and keeps exactly the input's members |
| Ggs.FailedToolNamesFrom | internal/roles/ggs/ggs.go:497-511 | every collected tool name is non-empty and comes from a tool call of a failed outcome |
| Ggs.AddCallNames | internal/roles/ggs/ggs.go:500-510 | the inner loop over tool calls extends the deduplicated list and keeps `seen` equal to it |
| Ggs.DeriveBlockedTools | internal/roles/ggs/ggs.go:491-514 | no tools are blocked unless the directive is break_symmetry or change_approach; then the blocked tools are the deduplicated tool names of failed outcomes |
| Ggs.PrimaryFailedCriterionIsFirst | internal/roles/ggs/ggs.go:521-534 | the primary failed criterion is the one from the first outcome that has an unmet criterion |
| Ggs.PrimaryFailedCriterionNone | internal/roles/ggs/ggs.go:521-534 | with no unmet criterion anywhere, the primary failed criterion is empty |
| Ggs.MatchedIntents | internal/roles/ggs/ggs.go:562-569 | an intent is listed exactly when some matched outcome has it; the list is empty exactly when no outcome matched |
| Ggs.OtherIntents | internal/roles/ggs/ggs.go:562-569 | an intent is listed exactly when some non-matched outcome has it; the list is empty exactly when every outcome matched |
| Ggs.IntentsPartition | internal/roles/ggs/ggs.go:562-569 | every outcome is counted once, either as completed or as failed |
| Ggs.AbandonPartsSpec | internal/roles/ggs/ggs.go:561-583 | the headline first; "Completed: …" joining the matched intents when that list is non-empty (some outcome matched); "Failed: …" joining the other intents when that list is non-empty (some outcome did not match); the gap summary exactly when it is non-empty; the advice last |
| Ggs.EvaluateRound | internal/roles/ggs/ggs.go:105-128 | the looping D and P computations produce the round of the specification function |
| Ggs.EvaluateSpec | internal/roles/ggs/ggs.go:105-128 | L lies in [0,1]; the first round has ∇L = 0 and is plateau or stable; the directive is abandon exactly when Ω ≥ 0.8; break_symmetry and change_approach only when P > 0.5 |
| Ggs.FirstRoundGradient | internal/roles/ggs/ggs.go:116-123 | with no previous loss, the gradient is plateau when D > δ and stable otherwise |
| Ggs.AcceptGradientNeverPlateau | internal/roles/ggs/ggs.go:211-259 | an accepted task (D = 0) is never labelled plateau |
| Ggs.RationaleEndsWithGap | internal/roles/ggs/ggs.go:586-606 | every rationale ends with "Gap: " and the gap summary |
| Ggs.RefineImprovingReports | internal/roles/ggs/ggs.go:588-590 | a refine rationale for an improving loss shows ∇L to three decimals |
| Ggs.RefineEnvironmentReports | internal/roles/ggs/ggs.go:591 | a refine rationale for any other gradient shows P to two decimals |
| Ggs.ChangePathReports | internal/roles/ggs/ggs.go:592-594 | a change_path rationale shows |∇L|, D and P |
| Ggs.ChangeApproachReports | internal/roles/ggs/ggs.go:595-596 | a change_approach rationale shows ∇L and P |
| Ggs.BreakSymmetryReports | internal/roles/ggs/ggs.go:597-599 | a break_symmetry rationale shows |∇L|, D and P |
| Ggs.AbandonReports | internal/roles/ggs/ggs.go:600-601 | an abandon rationale shows Ω |
| Ggs.BuildDirective | internal/roles/ggs/ggs.go:124-182 | the plan directive carries the loss breakdown, gradient and directive names, the blocked tools, the primary failed criterion, the failure class, Ω as budget pressure, ∇L and the rationale |
| Ggs.GGS.constructor | internal/roles/ggs/ggs.go:47-54 | the previous-loss and replan maps start empty, and the rationale uses the source's wording |
| Ggs.GGS.Process | internal/roles/ggs/ggs.go:95-195 | on abandon, the task's entries are removed and a final result is emitted; otherwise L is stored, the replan count is increased and the plan directive of BuildDirective, rationale included, is emitted |
| Ggs.GGS.Continue | internal/roles/ggs/ggs.go:98-113 | a round that goes on stores L and the new replan count and publishes the plan directive |
| Ggs.GGS.FinishAbandoned | internal/roles/ggs/ggs.go:134-163 | an abandoned task's final result is published and its loss and replan entries are deleted |
| Ggs.GGS.ProcessAccept | internal/roles/ggs/ggs.go:211-259 | the accept round computes L with D = 0 and P = 0.5, emits it, and clears the task's loss and replan entries |
| Memory.QuantizationMatrix | internal/roles/memory/memory.go:699-705 | the returned map is a copy of the package table |
| Memory.QuantizationMatrixShape | internal/roles/memory/memory.go:39-47 | seven tags with f in (0,1], k > 0 and σ in [-1,1]; σ is negative exactly for abandon and change_approach |
| Memory.SafeKeyPart | internal/roles/memory/memory.go:471-473 | the result contains no `\|` |
| Memory.SafeKeyPartPointwise | internal/roles/memory/memory.go:471-473 | the length is kept and each `\|` becomes `_`, every other character unchanged |
| Memory.MegIdFromIdxKey | internal/roles/memory/memory.go:463-468 | when the key has the prefix, the key is the prefix followed by the returned id |
| Memory.IdxKeyRoundTrip | internal/roles/memory/memory.go:448-468 | extracting the id from an index key under its own prefix gives back the id |
| Memory.MegIdWithoutPrefix | internal/roles/memory/memory.go:463-468 | a key without the prefix yields the empty id |
| Memory.IdxKeyUnambiguous | internal/roles/memory/memory.go:453-455 | equal index keys have equal sanitised space, sanitised entity and id |
| Memory.PrimaryKeyInjective | internal/roles/memory/memory.go:30-35 | distinct ids have distinct primary keys |
| Memory.LevelKeyUnambiguous | internal/roles/memory/memory.go:458-460 | for levels without `\|`, equal level keys have equal level and id |
| Memory.KeyFamilies | internal/roles/memory/memory.go:30-35 | primary, index, level and recall keys start with distinct letters, so the four key families never collide |
| Memory.SlugChars | internal/roles/memory/memory.go:489-508 | a slug word is no longer than the word and has only slug characters |
| Memory.SlugParts | internal/roles/memory/memory.go:489-508 | slug parts are non-empty slug-character words, at most one per input word |
| Memory.KeepSlugChars | internal/roles/memory/memory.go:495-503 | the character-filter loop builds the slug word |
| Memory.CollectSlugParts | internal/roles/memory/memory.go:495-506 | the part loop keeps the non-empty slug form of each word, in order |
| Memory.IntentSlug | internal/roles/memory/memory.go:489-508 | the looping slug builder equals the slug function |
| Memory.SlugShape | internal/roles/memory/memory.go:489-508 | the slug starts with `intent:`, uses at most three words and contains no `\|` |
| Memory.SlugOfBlank | internal/roles/memory/memory.go:489-508 | a blank intent gives exactly `intent:` |
| Memory.JsonPartNoArrow | internal/roles/memory/memory.go:526-548 | the JSON part handed to the decoder never contains the evidence arrow |
| Memory.ParseToolCall | internal/roles/memory/memory.go:526-548 | without `: ` both results are empty; otherwise the tool is the trimmed text before it and the target comes from the decoded JSON |
| Memory.DecisionPlane | internal/roles/memory/memory.go:558-569 | ignore, exploit, avoid and caution each hold exactly in their region of the attention/decision plane |
| Memory.WithDefaults | internal/roles/memory/memory.go:83-98 | id, created-at and level are filled in when empty and kept when set; no other field changes |
| Memory.WithDefaultsIdempotent | internal/roles/memory/memory.go:83-98 | filling defaults twice changes nothing the second time |
| Memory.NegativeFeedback | internal/roles/memory/memory.go:205-222 | a missing rule gives nothing; a present one is rewritten with σ = −1 and state negative_feedback, other fields kept |
| Memory.PersistIndexed | internal/roles/memory/memory.go:251-267 | persisting keeps the store indexed, makes the megram fetchable and adds exactly its primary, index and level keys |
| Memory.DeleteIndexed | internal/roles/memory/memory.go:420-431 | deleting keeps the store indexed, removes the megram and adds no key |
| Memory.ExpiredIds | internal/roles/memory/memory.go:334-366 | every id collected for deletion is expired: its attention, decayed from its creation time, is below 0.1 |
| Memory.DeleteAllIndexed | internal/roles/memory/memory.go:355-363 | the deletion batch keeps the store indexed, adds no key and removes every listed megram |
| Memory.DeleteAllKeepsLevel | internal/roles/memory/memory.go:355-363 | deleting at one level leaves the level keys of every other level untouched |
| Memory.BankruptIds | internal/roles/memory/memory.go:377-417 | every id collected for demotion is bankrupt |
| Memory.Demotions | internal/roles/memory/memory.go:392-396 | each collected megram is demoted to level K with k = 0.05 |
| Memory.DemoteAllFrame | internal/roles/memory/memory.go:405-408 | keys outside the demoted megrams' primary and level keys are untouched |
| Memory.DemoteAllKeeps | internal/roles/memory/memory.go:405-408 | the demotion batch removes only C-level keys |
| Memory.DemoteIndexed | internal/roles/memory/memory.go:405-408 | one demotion keeps the store indexed |
| Memory.DemoteAllIndexed | internal/roles/memory/memory.go:405-408 | the whole demotion batch keeps the store indexed |
| Memory.TrustIndexed | internal/roles/memory/memory.go:377-417 | the trust-bankruptcy pass keeps the store indexed |
| Memory.TrustFrame | internal/roles/memory/memory.go:377-417 | the pass deletes only C-level keys and leaves every key of non-bankrupt megrams untouched |
| Memory.DemoteEffect | internal/roles/memory/memory.go:405-408 | one demotion stores the megram and swaps its level key from l\|C\|id to l\|K\|id |
| Memory.DemoteAllEffect | internal/roles/memory/memory.go:405-408 | after the batch, every demoted id holds its demoted megram under l\|K\|id and has no l\|C\|id |
| Memory.TrustDemotes | internal/roles/memory/memory.go:377-417 | every bankrupt C-level megram ends the pass at level K with k = 0.05, indexed under l\|K\|id and no longer under l\|C\|id |
| Memory.CIds | internal/roles/memory/memory.go:108-137 | every id QueryC returns names a C-level record |
| Memory.SOPs | internal/roles/memory/memory.go:119-126 | one SOP per id, converted from the fetched megram |
| Memory.RecallFrame | internal/roles/memory/memory.go:127 | recall writes touch only recall keys |
| Memory.RecallKeepsFetch | internal/roles/memory/memory.go:127 | recall writes never change what a primary key fetches |
| Memory.CIdsComplete | internal/roles/memory/memory.go:108-137 | every scanned id whose record is at level C is returned |
| Memory.QueryCExact | internal/roles/memory/memory.go:108-137 | an id is returned exactly when it is a C-level record indexed under the queried space and entity |
| Memory.CIdsFrom | internal/roles/memory/memory.go:108-137 | every returned id came from a scanned key |
| Memory.AttentionNonNegative | internal/roles/memory/memory.go:149-195 | with non-negative decayed attention terms, the attention sum is non-negative |
| Memory.FetchedIds | internal/roles/memory/memory.go:577-608 | the summary lists at most one megram per scanned key, each fetchable |
| Memory.ScanSize | internal/roles/memory/memory.go:577-608 | an exact prefix scan has one key per stored key with that prefix |
| Memory.Store.constructor | internal/roles/memory/memory.go:59-75 | the store starts empty |
| Memory.Store.PersistMegram | internal/roles/memory/memory.go:251-267 | the batch put is the persist function on the old store |
| Memory.Store.Delete | internal/roles/memory/memory.go:420-431 | the batch delete is the delete function on the old store |
| Memory.CollectBankrupt | internal/roles/memory/memory.go:380-404 | the scan loop collects the demoted form of exactly the bankrupt C-level megrams, in scan order |
| Memory.Store.ApplyDemotions | internal/roles/memory/memory.go:405-408 | the batch applies every demotion in order and counts them |
| Memory.Store.TrustBankruptcyPass | internal/roles/memory/memory.go:377-417 | the new store is the trust pass of the old one; it reports the scanned count and the number of demoted megrams |
| Memory.Store.QueryC | internal/roles/memory/memory.go:108-137 | it returns the SOPs of the C-level ids and records their recalls, nothing else |
| Memory.Store.QueryMK | internal/roles/memory/memory.go:149-195 | the potentials are the attention and decision sums with the derived action; an empty scan gives (0, 0, ignore) |
| Memory.Store.Summary | internal/roles/memory/memory.go:577-608 | the per-level counts equal the scan sizes; the C-level list holds the SOPs of the fetchable C megrams |
| Memory.Store.GcScanLevel | internal/roles/memory/memory.go:334-366 | one level's pass deletes the ids the level GC function selects by creation-time decay; it reports the scanned and deleted counts |
| Memory.Store.GcPass | internal/roles/memory/memory.go:334-366 | GC scans M and then K, and reports all scanned keys |
| Memory.GcKeepsCT | internal/roles/memory/memory.go:334-366 | GC never touches C- or T-level keys |
| Memory.GcIndexed | internal/roles/memory/memory.go:334-366 | GC keeps the store indexed |
| Memory.ExpiredIdsComplete | internal/roles/memory/memory.go:334-366 | every scanned id whose attention decayed from its creation time is below 0.1 is collected |
| Memory.RecallKeepsExpired | internal/roles/memory/memory.go:347-352 | a recall stamp written by a C-level query does not spare a megram from GC, whose decay runs from the creation time |
| Memory.GcDeletesExpired | internal/roles/memory/memory.go:334-366 | an M-level megram expired by its creation-time decay is gone after GC |
| Memory.DeleteAllRemoves | internal/roles/memory/memory.go:420-431 | every listed id is no longer fetchable |
| Memory.DeleteKeepsAbsent | internal/roles/memory/memory.go:420-431 | deleting never makes a missing megram appear |
| Memory.DeleteAllKeepsAbsent | internal/roles/memory/memory.go:420-431 | a batch of deletions never makes a missing megram appear |
| Planner.NormalizeBrainMode | internal/roles/planner/planner.go:137-145 | the mode is cc exactly when cc was asked for, and llm otherwise |
| Planner.MemTokenize | internal/roles/planner/planner.go:393-401 | the tokenising loop yields the keyword function |
| Planner.LongWordsMembers | internal/roles/planner/planner.go:393-401 | the kept words are exactly the words of length at least 3 |
| Planner.KeywordsSpec | internal/roles/planner/planner.go:393-401 | keywords are exactly the lower-cased fields of length ≥ 3; each is a lower-case word; a blank input has none |
| Planner.InsertPermutes | internal/roles/planner/planner.go:312-316 | inserting adds exactly the one entry |
| Planner.InsertNewestFirst | internal/roles/planner/planner.go:312-316 | inserting into a newest-first list keeps it newest first |
| Planner.ByRecencySorted | internal/roles/planner/planner.go:312-316 | the sort is newest first and a permutation of its input |
| Planner.CappedKeepsNewest | internal/roles/planner/planner.go:312-319 | the cap keeps min(n, 10) entries, drawn from the input, none older than any dropped one |
| Planner.CappedMembers | internal/roles/planner/planner.go:312-319 | every kept entry comes from the input |
| Planner.RelevantOfSpec | internal/roles/planner/planner.go:322-336 | exactly the entries whose lower-cased text mentions a keyword are kept, in order |
| Planner.RelevantOfNone | internal/roles/planner/planner.go:322-336 | with no matching entry, nothing is relevant |
| Planner.OfTypeSpec | internal/roles/planner/planner.go:339-348 | the split keeps exactly the entries of the given type, in order |
| Planner.EntrySummarySpec | internal/roles/planner/planner.go:375-385 | the content is clipped to 180 characters plus an ellipsis only when longer; the summary ends with the clipped content |
| Planner.Lines | internal/roles/planner/planner.go:339-348 | one bulleted line per entry, each with that entry's summary |
| Planner.HasKeyword | internal/roles/planner/planner.go:328-333 | the keyword loop reports an overlap exactly when there is one |
| Planner.KeepRelevant | internal/roles/planner/planner.go:322-336 | the relevance loop yields the relevant-entry function |
| Planner.SplitByType | internal/roles/planner/planner.go:339-348 | the must-not lines come from procedural entries and the should-prefer lines from episodic entries |
| Planner.WriteLines | internal/roles/planner/planner.go:350-366 | the builder gains exactly the block of lines |
| Planner.WriteSections | internal/roles/planner/planner.go:350-366 | the builder holds the rendered sections |
| Planner.Calibrate | internal/roles/planner/planner.go:306-367 | the calibration loop yields the calibration function |
| Planner.RenderSpec | internal/roles/planner/planner.go:350-366 | the output is empty exactly with no lines; it starts with the MUST NOT heading exactly when there are must-not lines, and with the SHOULD PREFER heading when those are the only lines |
| Planner.CalibrateEmpty | internal/roles/planner/planner.go:306-367 | the output is empty exactly when no relevant entry is procedural or episodic; no entries or no keyword match gives an empty output |
| Planner.CalibrateSections | internal/roles/planner/planner.go:306-367 | every relevant entry is among the 10 newest and mentions a keyword; the sections carry exactly the procedural and episodic ones |
| Planner.BlockedToolsBlock | internal/roles/planner/planner.go:268-282 | the GGS block is the heading followed by one line per blocked tool |
| Planner.ReplanConstraints | internal/roles/planner/planner.go:268-282 | the merge loop yields the constraint-merge function |
| Planner.MergeConstraintsSpec | internal/roles/planner/planner.go:261-287 | the constraints are "none" exactly when memory and blocked tools are both empty; blocked tools come first, memory last |
| Planner.MergeShape | internal/roles/planner/planner.go:268-282 | the same shape for any memory text that starts like a calibration output |
| Planner.ConsultBounded | internal/roles/planner/planner.go:465-519 | the cc-call counter never passes its cap; a plan returned below the cap asks no further question |
| Planner.DispatchViaLLM | internal/roles/planner/planner.go:465-519 | the loop yields the consultation function and makes at most cap + 1 model calls |
| Planner.StampAll | internal/roles/planner/planner.go:576-583 | stamping keeps the number of subtasks |
| Planner.SubTaskIds | internal/roles/planner/planner.go:586-602 | one id per subtask |
| Planner.StampAllSpec | internal/roles/planner/planner.go:576-583 | each subtask gets the parent task id and a non-empty id, keeping an id it already had; nothing else changes |
| Planner.StampIds | internal/roles/planner/planner.go:576-602 | the in-place loop stamps every subtask and collects their ids |
| Planner.FanOut | internal/roles/planner/planner.go:606-621 | the manifest is sent first, then one message per subtask in order |
| Planner.EmitSubTasks | internal/roles/planner/planner.go:550-624 | a parse failure and an empty plan are reported as such; otherwise the stamped subtasks and a manifest of their ids are emitted |
| Planner.Planner.constructor | internal/roles/planner/planner.go:129-134 | the brain mode is the normalised mode asked for |
| Planner.Planner.SetBrainMode | internal/roles/planner/planner.go:137-145 | the brain mode becomes the normalised mode |
| Planner.Planner.Dispatch | internal/roles/planner/planner.go:447-455 | the cc brain emits what EmitSubTasks makes of the fence-stripped reply to the system and user prompts joined by a blank line; the llm brain fails exactly when the consultation's chat fails and otherwise emits what EmitSubTasks makes of the consultation's raw plan and cc-call count; the manifest records the brain |
| Text.FirstN | cmd/agsh/main.go:624-629 | a string within the limit is kept; a longer one is cut to n characters plus `...` |
| Dispatcher.Buffered | cmd/agsh/main.go:255-269 | the loop counts every buffered subtask across all groups |
| Dispatcher.MinSeqAbove | cmd/agsh/main.go:244-252 | −1 exactly when no sequence lies above the floor; otherwise the least sequence above it |
| Dispatcher.Injected | cmd/agsh/main.go:226-241 | one launched subtask per buffered one |
| Dispatcher.InjectedSpec | cmd/agsh/main.go:226-241 | without prior outputs the group is launched unchanged; otherwise only the context changes, extended by the prior outputs |
| Dispatcher.Dispatcher.constructor | cmd/agsh/main.go:198 | there are no dispatches, launches or cancellations yet |
| Dispatcher.Dispatcher.DispatchSeq | cmd/agsh/main.go:226-241 | the current sequence is set, the in-flight count grows by the group size and the group is launched with prior context |
| Dispatcher.Dispatcher.TryStart | cmd/agsh/main.go:255-269 | a sequence starts exactly when all expected subtasks are buffered, nothing is running and some positive sequence exists |
| Dispatcher.Dispatcher.Abort | cmd/agsh/main.go:276-284 | the task's dispatch is dropped and cancelled if there was one |
| Dispatcher.Dispatcher.OnManifest | cmd/agsh/main.go:286-304 | the new state is the task's state with the expected subtask count recorded, followed by the start attempt's outcome (nothing changes, or the smallest positive group is launched) |
| Dispatcher.ManifestRecorded | cmd/agsh/main.go:286-304 | after a manifest the task expects the manifest's count and keeps its buffered groups; no other task changes; nothing launches unless a group starts |
| Dispatcher.Dispatcher.OnSubTask | cmd/agsh/main.go:306-322 | the new state is the task's state with the subtask appended to its sequence's group, followed by the start attempt's outcome |
| Dispatcher.SubTaskRecorded | cmd/agsh/main.go:306-322 | after a subtask arrives its group ends with it, the task's other groups and every other task are unchanged, and nothing launches unless a group starts |
| Dispatcher.Dispatcher.OnCompletion | cmd/agsh/main.go:324-350 | an unknown task is ignored; otherwise the output is appended, in-flight drops by one, and at zero the next sequence is started or the dispatch is removed |
| Dispatcher.RecordTurn | cmd/agsh/main.go:588-591 | the history ends with the new turn and keeps the last min(n+1, 5) turns |
| Dispatcher.SessionContextSpec | cmd/agsh/main.go:613-622 | the context is empty exactly for an empty history and extends the context of the shorter history |
| Dispatcher.BuildSessionContext | cmd/agsh/main.go:613-622 | the builder loop yields the session-context function |
| MetaVal.Ids | internal/roles/metaval/metaval.go:151-158 | one id per outcome |
| MetaVal.WithStatusSpec | internal/roles/metaval/metaval.go:151-158 | filtering by status distributes over concatenation and keeps exactly the outcomes with that status |
| MetaVal.MembersWithStatus | internal/roles/metaval/metaval.go:151-158 | an outcome is kept exactly when it has the status |
| MetaVal.CorrectionsAppend | internal/roles/metaval/metaval.go:151-158 | the correction total of a concatenation is the sum of the totals |
| MetaVal.Collect | internal/roles/metaval/metaval.go:151-158 | the loop collects the failed ids and the correction total |
| MetaVal.IdsWithStatus | internal/roles/metaval/metaval.go:151-158 | the loop collects the ids of the outcomes with a status |
| MetaVal.Parts | internal/roles/metaval/metaval.go:363-394 | one gap part per outcome |
| MetaVal.GapParts | internal/roles/metaval/metaval.go:171-191 | the loop collects the gap parts of the failed outcomes |
| MetaVal.CollectReasons | internal/roles/metaval/metaval.go:333-342 | the loop collects the abandon reasons |
| MetaVal.JoinContains | internal/roles/metaval/metaval.go:171-191 | a joined text contains each of its parts |
| MetaVal.GapSummarySpec | internal/roles/metaval/metaval.go:171-191 | with a failed outcome, the gap summary is non-empty and mentions every failed outcome's part |
| MetaVal.TagWords | internal/roles/metaval/metaval.go:229-236 | the tag loop yields the tag function |
| MetaVal.TagsSpec | internal/roles/metaval/metaval.go:229-236 | at most one tag per word; each tag is lower-case with no trimmed punctuation at its ends |
| MetaVal.HardGate | internal/roles/metaval/metaval.go:171-191 | with a failed outcome the merge function is never consulted; the task is replanned (outcomes cleared, count + 1) or abandoned with a final result |
| MetaVal.ReplannedSpec | internal/roles/metaval/metaval.go:311-425 | the publish log only grows; the task is abandoned exactly at the third replan; otherwise the count grows, the outcomes reset and a procedural failure memory with failure/replan tags precedes the replan request |
| MetaVal.ThirdReplanAbandons | internal/roles/metaval/metaval.go:311-361 | starting from no replans, the first two replans keep the task and the third abandons it |
| MetaVal.AcceptedSpec | internal/roles/metaval/metaval.go:223-292 | the task's trackers, start time and replan count are removed; a success memory tagged with the task and intent words and the outcome summary are published |
| MetaVal.IdsMembers | internal/roles/metaval/metaval.go:151-158 | an id is listed exactly when some outcome has it |
| MetaVal.MetaValidator.constructor | internal/roles/metaval/metaval.go:66-76 | all maps and the publish log start empty |
| MetaVal.MetaValidator.OnManifest | internal/roles/metaval/metaval.go:98-113 | the task gets a fresh tracker; its start time is set only the first time |
| MetaVal.MetaValidator.OnOutcome | internal/roles/metaval/metaval.go:126-142 | an unknown task changes nothing; otherwise the outcome is appended and completion means all expected outcomes are in |
| MetaVal.MetaValidator.TriggerReplan | internal/roles/metaval/metaval.go:311-425 | the new state is the replan function of the old state |
| MetaVal.MetaValidator.Abandon | internal/roles/metaval/metaval.go:328-361 | the new state is the abandon function of the old state |
| MetaVal.MetaValidator.Reschedule | internal/roles/metaval/metaval.go:363-424 | the new state is the reschedule function of the old state |
| MetaVal.MetaValidator.Accept | internal/roles/metaval/metaval.go:223-292 | the new state is the accept function of the old state |
| MetaVal.MetaValidator.Evaluate | internal/roles/metaval/metaval.go:147-297 | the new state is the evaluation function of the old state |
| AgentVal.AggregateFailureClass | internal/roles/agentval/agentval.go:90-113 | the class is empty, logical, environmental or mixed exactly by which unmet classes occur |
| AgentVal.CriteriaVerdictsSpec | internal/roles/agentval/agentval.go:121-139 | one verdict per criterion, pass exactly when met and fail exactly when not, with the criterion and class carried over |
| AgentVal.ToCriteriaVerdicts | internal/roles/agentval/agentval.go:121-139 | the filling loop yields the verdict function; no criteria give no verdicts |
| AgentVal.FirstUnmet | internal/roles/agentval/agentval.go:296-306 | −1 exactly when all criteria are met; otherwise the first unmet one |
| AgentVal.CorrectionTarget | internal/roles/agentval/agentval.go:296-306 | the target is the first unmet criterion and its class, falling back to the first listed unmet criterion |
| AgentVal.PickTarget | internal/roles/agentval/agentval.go:296-306 | the loop yields the correction-target function |
| AgentVal.Step | internal/roles/agentval/agentval.go:199-343 | a retry moves to the next attempt, still below the limit |
| AgentVal.StepSpec | internal/roles/agentval/agentval.go:199-343 | one attempt keeps the loop state consistent; a stop has a trajectory with one point per scored attempt, numbered from 1 |
| AgentVal.RunSpec | internal/roles/agentval/agentval.go:176-346 | the trajectory is numbered 1, 2, … and bounded by the retry limit; the status is matched or failed; sent messages only grow |
| AgentVal.RetryAtLimit | internal/roles/agentval/agentval.go:286-294 | a retry at the last attempt fails with the max-retries note and publishes the outcome |
| AgentVal.ScoringErrorFails | internal/roles/agentval/agentval.go:219-224 | a scoring error fails with that message and a zero trajectory point |
| AgentVal.FailedVerdictReason | internal/roles/agentval/agentval.go:334-343 | any other verdict fails with its reason, or "validation failed", and publishes the outcome |
| AgentVal.InterruptedUnpublished | internal/roles/agentval/agentval.go:199-214 | cancellation or a closed channel fails without publishing and keeps the trajectory |
| AgentVal.Validate | internal/roles/agentval/agentval.go:176-346 | the imperative loop yields the run function from attempt 0 |
| AgentVal.ValidateSpec | internal/roles/agentval/agentval.go:176-346 | a whole run has at most the retry limit of trajectory points, numbered from 1, and sends at most that many messages |
| Auditor.PathAllowed | internal/roles/auditor/auditor.go:180-197 | the scan finds a match exactly when the sender-receiver pair is allowed |
| Auditor.BoundarySpec | internal/roles/auditor/auditor.go:204-222 | a disallowed route adds one violation and a boundary anomaly; an allowed one adds neither |
| Auditor.ManifestSpec | internal/roles/auditor/auditor.go:225-229 | exactly a dispatch manifest counts one more observed task |
| Auditor.TrackReplanSpec | internal/roles/auditor/auditor.go:233-258 | a replan adds its corrections to the total and the task count, counts one more replan, and flags drift past the threshold |
| Auditor.ReplanSpec | internal/roles/auditor/auditor.go:199-258 | the same counter updates hold for the whole process step |
| Auditor.NonReplanSpec | internal/roles/auditor/auditor.go:233-258 | any other message leaves the correction, replan and drift counters unchanged |
| Auditor.TrackDirectiveSpec | internal/roles/auditor/auditor.go:262-316 | a directive tallies its gradient, and break_symmetry updates the per-task count and last D |
| Auditor.TallySpec | internal/roles/auditor/auditor.go:262-285 | the tally grows by one, in exactly the gradient's bucket |
| Auditor.DirectiveSpec | internal/roles/auditor/auditor.go:199-316 | for the whole process step, the trend tally grows by one in exactly the directive gradient's bucket |
| Auditor.BreakSymSpec | internal/roles/auditor/auditor.go:288-316 | the break-symmetry count restarts at 1 when D dropped by more than the tolerance and otherwise grows by one |
| Auditor.AverageSpec | internal/roles/auditor/auditor.go:363-366 | the average is 0 with no tasks, corrections/tasks otherwise, and non-negative |
| Auditor.ResetSpec | internal/roles/auditor/auditor.go:339-395 | after the reset, the report of the window is empty and starts now; per-task maps are kept |
| Auditor.Auditor.constructor | internal/roles/auditor/auditor.go:63-79 | all counters and maps start empty, the window starting now, with no reports |
| Auditor.Auditor.Process | internal/roles/auditor/auditor.go:199-337 | the new audit state is the process function of the old one; no report is published |
| Auditor.Auditor.CheckPath | internal/roles/auditor/auditor.go:204-222 | the new state is the boundary check of the old state |
| Auditor.Auditor.OnReplan | internal/roles/auditor/auditor.go:233-258 | the new state is the replan tracking of the old state |
| Auditor.Auditor.OnDirective | internal/roles/auditor/auditor.go:262-316 | the new state is the directive tracking of the old state |
| Auditor.Auditor.OnGradient | internal/roles/auditor/auditor.go:262-285 | the new state is the gradient step of the old state |
| Auditor.Auditor.OnBreakSymmetry | internal/roles/auditor/auditor.go:288-316 | the new state is the break-symmetry step of the old state |
| Auditor.Auditor.PublishReport | internal/roles/auditor/auditor.go:339-395 | the report of the old window is published and the window is reset |
| TaskLog.BegunSpec | internal/tasklog/tasklog.go:150-157 | a new log holds one task_begin event, counts no tokens and is open |
| TaskLog.WrittenSpec | internal/tasklog/tasklog.go:330-345 | an open log appends the event, a closed one ignores it; token counters are unchanged |
| TaskLog.CalledSpec | internal/tasklog/tasklog.go:236-254 | an LLM call adds its prompt and completion tokens and appends the event while open |
| TaskLog.EndedSpec | internal/tasklog/tasklog.go:173-205 | closing appends one task_end event with the elapsed time and the token total of all events, then closes the log |
| TaskLog.TaskLog.constructor | internal/tasklog/tasklog.go:150-157 | the new log is the begun state |
| TaskLog.TaskLog.Write | internal/tasklog/tasklog.go:330-345 | the new state is the written state |
| TaskLog.LogSubtaskBegin | internal/tasklog/tasklog.go:208-219 | a nil log is ignored; otherwise a subtask_begin event is written |
| TaskLog.LogSubtaskEnd | internal/tasklog/tasklog.go:222-231 | a nil log is ignored; otherwise a subtask_end event is written |
| TaskLog.LogLLMCall | internal/tasklog/tasklog.go:236-254 | a nil log is ignored; otherwise the call is counted and written |
| TaskLog.LogToolCall | internal/tasklog/tasklog.go:257-269 | a nil log is ignored; otherwise a tool_call event is written |
| TaskLog.LogCriterionVerdict | internal/tasklog/tasklog.go:272-285 | a nil log is ignored; otherwise a criterion_verdict event is written |
| TaskLog.LogCorrection | internal/tasklog/tasklog.go:288-299 | a nil log is ignored; otherwise a correction event is written |
| TaskLog.LogReplan | internal/tasklog/tasklog.go:302-312 | a nil log is ignored; otherwise a replan event is written |
| TaskLog.TotalTokens | internal/tasklog/tasklog.go:320-327 | 0 for a nil log; otherwise prompt plus completion tokens, which equal the token sum of its events |
| TaskLog.Registry.constructor | internal/tasklog/tasklog.go:125-127 | the registry starts with no logs |
| TaskLog.Registry.Open | internal/tasklog/tasklog.go:131-158 | an open task gets its existing log back; otherwise a fresh begun log is registered, or nil when the file cannot be created |
| TaskLog.Get | internal/tasklog/tasklog.go:162-169 | the registered log, or nil for a nil registry or an unknown task |
| TaskLog.Close | internal/tasklog/tasklog.go:173-205 | a registered log is ended and unregistered; anything else is unchanged |
| Executor.LastN | internal/roles/executor/executor.go:434-439 | a short string is kept; a longer one becomes `...` plus its last n characters |
| Executor.HeadTailSpec | internal/roles/executor/executor.go:445-452 | a short string is kept; a longer one is its first third, the marker, and its last part, maxLen characters in all besides the marker |
| Executor.RedirectPersonalFind | internal/roles/executor/executor.go:328-348 | a find over a personal path with a `-name` pattern is redirected exactly when the pattern matches, to that pattern |
| Executor.NormalizeFindCmdSpec | internal/roles/executor/executor.go:350-363 | a non-find command is unchanged; a find command always discards stderr, appending the redirect only when it is missing |
| Executor.RouteShell | internal/roles/executor/executor.go:369-385 | a shell call goes to Spotlight exactly when the redirect applies; other non-find commands run unchanged |
| Executor.TurnPrompt | internal/roles/executor/executor.go:211-215 | without tool results the prompt is the user prompt; otherwise the results section follows it |
| Executor.Signature | internal/roles/executor/executor.go:246-247 | the signature starts with the tool name and a colon |
| Executor.EvidenceShape | internal/roles/executor/executor.go:286-299 | a history entry is its signature, the arrow, then the evidence |
| Executor.RecordedStep | internal/roles/executor/executor.go:252-260 | recording a non-repeated call keeps history and signatures in step |
| Executor.StepSpec | internal/roles/executor/executor.go:209-308 | (corrected repeat guard, see Findings) one turn either stops with its call count or continues with the history extended |
| Executor.RunSpec | internal/roles/executor/executor.go:209-308 | (corrected repeat guard) every run ends well: within the turn bound, with history and signatures in step and no consecutive repeated call |
| Executor.RunExhausted | internal/roles/executor/executor.go:303-308 | running out of turns uses every turn and returns an uncertain result carrying the tool context |
| Executor.Execute | internal/roles/executor/executor.go:182-309 | the imperative loop, with the repeat guard corrected as under Findings, yields the run function |
| Executor.ExecuteSpec | internal/roles/executor/executor.go:182-309 | (corrected repeat guard) 1 to 10 model calls; the history has no consecutive repeated call; exhaustion means all 10 calls were used |
| Executor.DuplicateAsWrittenMisses | internal/roles/executor/executor.go:246-260 | the guard as written never fires after a tool run, because the last entry carries the evidence |
| Llm.NormalizeBaseURLSpec | internal/llm/client.go:36-39 | trailing slashes and one `/chat/completions` suffix are removed and nothing else |
| Llm.NoThinkClean | internal/llm/client.go:190-205 | the result contains no `<think>` |
| Llm.NoThinkIdentity | internal/llm/client.go:190-205 | text without `<think>` is unchanged |
| Llm.NoThinkUnclosed | internal/llm/client.go:190-205 | an unclosed block cuts everything from `<think>` on |
| Llm.StripThinkBlocks | internal/llm/client.go:190-205 | the loop removes every think block and trims, leaving no `<think>` |
| Llm.StripFencesClean | internal/llm/client.go:209-223 | the result is trimmed and has no `<think>` |
| Llm.StripFencesUnfenced | internal/llm/client.go:209-223 | text without a fence is only stripped of think blocks and trimmed |
| Display.ClipSpec | internal/ui/display.go:364-370 | a string of at most n runes is kept; a longer one is its first n runes plus an ellipsis |
| Display.ClipIdempotent | internal/ui/display.go:364-370 | clipping twice is clipping once |
| Display.RoleLabelSpec | internal/ui/display.go:288-294 | the label ends with a space and the role, with a bullet for unknown roles |
| Display.DynamicStatusSpec | internal/ui/display.go:67-91 | a correction with advice shows the retry head and the clipped advice |
| Display.CorrectionFallback | internal/ui/display.go:67-91 | a correction without advice shows the plain retrying status |
| Display.SubTaskDetailSpec | internal/ui/display.go:312-323 | the detail is the sequence and clipped intent, followed by the first criterion and a count of the others when there are any |
| Display.OutcomeDetailSpec | internal/ui/display.go:329-339 | a failure with unmet criteria names the first one; any other outcome shows its status |
| Display.ManifestDetailSpec | internal/ui/display.go:345-360 | "1 subtask" exactly for one, "N subtasks" otherwise |
| Display.MsgDetailSpec | internal/ui/display.go:305-361 | unhandled types give no detail; each handled type gives its own detail, bounded where clipped |
| WebSearch.WritePage | internal/tools/websearch.go:114-128 | the builder steps for one page write its block |
| WebSearch.FormatBochaResult | internal/tools/websearch.go:100-132 | the builder loop yields the formatting function |
| WebSearch.NoResults | internal/tools/websearch.go:101-104 | no pages give the not-found line with the quoted query |
| WebSearch.CapSpec | internal/tools/websearch.go:107-110 | only the first results count |
| WebSearch.BlockSpec | internal/tools/websearch.go:114-128 | a block starts with the name, ends with the URL, and has the summary (or else the snippet) and the date in between |
| WebSearch.PageShown | internal/tools/websearch.go:111-128 | every shown page's block appears in the output, after a blank line from the previous one |
| WebSearch.TrimSpec | internal/tools/websearch.go:131 | the result is the body without its trailing newlines |
| Mdfind.ShellQuoteRoundTrip | internal/tools/mdfind.go:62-64 | a POSIX shell reads the quoted word back as the original string |
| Mdfind.ExtSpec | internal/tools/mdfind.go:30-46 | the extension is empty or a dot-led suffix without a further dot or slash |
| Mdfind.FilterByExt | internal/tools/mdfind.go:36-43 | the filter loop yields the matching function |
| Mdfind.MatchingSpec | internal/tools/mdfind.go:36-43 | exactly the lines ending in the extension are kept |
| Mdfind.MatchingSubset | internal/tools/mdfind.go:36-43 | every kept line is an input line |
| Mdfind.RunMdfind | internal/tools/mdfind.go:21-50 | the procedure yields the search function |
| Mdfind.SearchSpec | internal/tools/mdfind.go:21-50 | failures and non-empty first answers pass through; an empty answer gives the not-found text unless the retry by stem finds matching lines |
| Mdfind.RetrySpec | internal/tools/mdfind.go:30-46 | a successful retry returns the stem hits that end in the extension, and there is at least one |
| Workspace.ExpandHomeSpec | internal/tools/workspace.go:34-44 | `~` is the home directory, `~/x` is home joined with x, and anything else is unchanged |
| Workspace.ExpandHomeOnlyTilde | internal/tools/workspace.go:34-44 | only paths starting with `~` are changed |
| Workspace.WorkspaceDirSpec | internal/tools/workspace.go:12-18 | the environment setting wins; otherwise `agsh_workspace` under home, or relative when home is unknown |
| Workspace.PlainChild | internal/tools/workspace.go:60-66 | a clean directory joined with a clean file name is again a path that filepath.Clean leaves alone |
| Workspace.ResolveBareName | internal/tools/workspace.go:60-66 | for a `filepath.Clean`/`Dir` pair that behaves as Go's does on clean paths, a bare file name and the same name behind "./" are both redirected to workspace/name |
| Workspace.ResolveKeepsDirectory | internal/tools/workspace.go:60-66 | under the same assumption, a clean path with a directory part (relative, absolute or an expanded home path) is returned unchanged and not redirected |
| Workspace.DefaultWorkspacePlain | internal/tools/workspace.go:12-18 | with the variable unset and a clean home directory, the workspace is exactly home/agsh_workspace and is itself clean, so a redirected name lands directly under it |
| Bus.OfferSpec | internal/bus/bus.go:32-55 | a message is queued when there is room and dropped otherwise; capacity is kept |
| Bus.Fanout | internal/bus/bus.go:32-55 | one queue out per queue in |
| Bus.FanoutSpec | internal/bus/bus.go:32-55 | each queue is offered the message |
| Bus.PublishedSpec | internal/bus/bus.go:32-56 | only the message type's subscribers and every tap are offered it; buffers stay within capacity |
| Bus.SubscribedSpec | internal/bus/bus.go:60-66 | a new empty queue of capacity 64 is appended for the type only |
| Bus.TappedSpec | internal/bus/bus.go:70-81 | a new empty tap of capacity 256 is appended |
| Bus.UnsubscribedType | internal/bus/bus.go:32-43 | publishing a type nobody subscribed to leaves subscribers unchanged |
| Bus.Bus.constructor | internal/bus/bus.go:24-28 | the bus starts with no subscribers and no taps |
| Bus.Bus.Publish | internal/bus/bus.go:32-56 | the new state is the published state |
| Bus.Bus.Subscribe | internal/bus/bus.go:60-66 | the new state has the subscription; the handle is its position |
| Bus.Bus.NewTap | internal/bus/bus.go:70-81 | the new state has the tap; the handle is its position |
| Bus.Send | internal/bus/bus.go:32-55 | the loop offers the message to every queue |
| Perceiver.PerceiveOnce | internal/roles/perceiver/perceiver.go:112-144 | the step-by-step fill yields the perceive function |
| Perceiver.PerceiveSpec | internal/roles/perceiver/perceiver.go:138-141 | an understood input gets a non-empty task id and its raw input |
| Perceiver.Process | internal/roles/perceiver/perceiver.go:64-97 | the loop, with the final call corrected as under Findings, yields the process function |
| Perceiver.FinalRound | internal/roles/perceiver/perceiver.go:90-96 | the corrected final call (see Findings) yields the final-call function |
| Perceiver.FinalSpec | internal/roles/perceiver/perceiver.go:90-96 | (corrected final call) the final committed call ends a well-formed run |
| Perceiver.RoundsSpec | internal/roles/perceiver/perceiver.go:66-88 | the clarification rounds end a well-formed run from any reachable point |
| Perceiver.ProcessWellRun | internal/roles/perceiver/perceiver.go:64-97 | (corrected final call) every run makes at most three calls and asks at most two questions, each call following from the previous round, and publishes only a spec with a task id and the last call's input |
| Perceiver.BlankAnswerCommits | internal/roles/perceiver/perceiver.go:82-84 | a blank answer goes straight to the committed call with no session context |
| Perceiver.FinalAsWrittenLosesId | internal/roles/perceiver/perceiver.go:90-96 | as written, a final reply still asking for clarification publishes an empty spec with no task id |
| TechNews.FetchFeed | fetch_tech_news.py:7-29 | the loop yields the feed-items function |
| TechNews.NoTitleSpoils | fetch_tech_news.py:9-29 | a missing title among the first five entries loses the whole feed |
| TechNews.ItemsSpec | fetch_tech_news.py:12-25 | the items exist exactly when every entry has a title; then one item per entry |
| TechNews.DateOfSpec | fetch_tech_news.py:14-18 | published wins, then updated, then no date |
| TechNews.FeedItemsSpec | fetch_tech_news.py:7-29 | at most five items; a failed fetch gives none; entries all with titles give five or fewer items in order |
| TechNews.Gather | fetch_tech_news.py:44-49 | the loop yields the collected items |
| TechNews.AppendRecent | fetch_tech_news.py:48-49 | the loop appends the recent items |
| TechNews.RecentSpec | fetch_tech_news.py:48-49 | exactly the undated or recent items are kept |
| TechNews.CollectedAppend | fetch_tech_news.py:44-49 | collecting over concatenated feed lists concatenates the results |
| TechNews.FailureIsolated | fetch_tech_news.py:27-29 | a failing feed contributes nothing and does not affect the others |
| TechNews.CollectedSpec | fetch_tech_news.py:44-49 | every collected item is recent and comes from one of the feeds |
| TechNews.InsertMultiset | fetch_tech_news.py:52 | insertion adds exactly the one item |
| TechNews.InsertSorted | fetch_tech_news.py:52 | insertion keeps the order newest first |
| TechNews.InsertWithKey | fetch_tech_news.py:52 | insertion is stable: items with an equal date keep their order |
| TechNews.SortDescSpec | fetch_tech_news.py:52 | the sort is newest first, a permutation, and stable |
| TechNews.SortByDate | fetch_tech_news.py:52 | the in-place array sort yields the sort function |
| TechNews.InsertLast | fetch_tech_news.py:52 | one insertion step in place inserts the next item into the sorted prefix |
| TechNews.UndatedLast | fetch_tech_news.py:52 | undated items sort after dated ones |
| TechNews.TopHeadlines | fetch_tech_news.py:31-67 | the procedure yields the top items |
| TechNews.TopSpec | fetch_tech_news.py:52-55 | the top list holds the first min(10, n) of the sorted items, newest first |
| TechNews.TopRecent | fetch_tech_news.py:42-55 | every top item is recent and collected |
| TechNews.TopComplete | fetch_tech_news.py:52-55 | an item left out means the list is full of items no older than it |
| TechNews.TopUndatedLast | fetch_tech_news.py:52-55 | undated items come last in the top list |
| TechNews.DateTextSpec | fetch_tech_news.py:61 | no date prints "Unknown"; otherwise the formatted date |
| TechNews.EntriesSpec | fetch_tech_news.py:57-65 | four lines per item, in order |
| TechNews.ListingSpec | fetch_tech_news.py:57-65 | the heading, an 80-character rule, then each item numbered from 1 with its headline, source, date and blank line |

## Left out

- Concurrency is not modelled. This covers goroutines, channels, `select`
  loops, mutexes, tickers and timers: every role's `Run`, `Store.dreamer`,
  `Display.Run`/`WaitTaskClose`, the REPL readline loop and signal handling.
  Each message handler is one sequential transition over explicit state.
- Bus queues are values, not channels. The model has no aliasing between
  readers and no blocking; the drop-on-full rule and the capacities 64 and
  256 are kept.
- These outside computations are oracle parameters:
  - language-model calls (`llm.Client.Chat`, `NewTier` environment lookups);
  - the `runCC` and `dispatchViaCCBrain` subprocesses;
  - shell and file tools, and `runMdfindQuery`;
  - the web-search HTTP request;
  - the clarification prompt;
  - the feed parser and network.
  `shell.go`, `fileio.go`, `applescript.go`, `shortcuts.go` and `glob.go`
  are not part of this model.
- These library calls are opaque function parameters:
  - JSON encoding and decoding, including the `ParseToolCall` unmarshal;
  - the calibrate haystack;
  - the `maxdepthRe` and `findNameRe` regular expressions;
  - UUIDs and `time.Now`;
  - `filepath.Clean`/`Dir`;
  - the home directory and environment;
  - `strftime`.
- JSON marshalling failures and LevelDB read and write errors are not
  modelled. Every batch write succeeds, so the trust pass counts every
  demotion it applies.
- LevelDB is a map from keys to cells. Prefix scans are key-list
  parameters, with a ghost precondition that the list is exactly the stored
  keys with that prefix.
- The `math.Exp` time decay in `QueryMK` and `gcPass` is not modelled. The
  decay factor is a parameter `decay(m, since)`: `gcPass` asks for it from
  the creation time (`since` = None), `QueryMK` from the last recall when
  there is one. The decayed attention and decision values follow from it.
- `Store.SummaryVerbose` (memory.go:620-696) is not modelled. It sorts by
  decayed values and only formats text.
- Arithmetic uses exact `real` for GGS, memory thresholds and auditor
  averages, so IEEE rounding is not modelled. `%.nf` formatting (`%.3f`
  in the display, `%.1f`–`%.3f` in the GGS rationale) is a parameter
  `fmt(x, n)`.
- Terminal output is not modelled. This covers ANSI rendering,
  `printResult`, `printAuditReport`, `printFlow`, the spinner and the
  `Display` struct's state.
- Auditor file persistence (`loadStats`, `saveStats`, `writeEvent`) is not
  modelled.
- Task-log file I/O is not modelled. A task log's file is its event list,
  and a failure to create it appears only as `Registry.Open` returning nil.
- Go's `sort.Slice` is not stable. The planner's memory sort is one
  admissible order (insertion), so ties between equal timestamps may be
  ordered differently by Go.
- A `char` stands for a byte wherever Go uses `len` or slicing on strings.
  The only exception is `clip` in the UI, which counts runes as the source
  does.
- The message datatypes follow the fields the roles actually read and
  write. `internal/types/types.go` lags behind those uses in several places.
- `metaval.go:323` calls `tl.Replan` with two arguments, while
  `tasklog.go:302` takes three. `TaskLog.LogReplan` follows `tasklog.go`
  with three parameters; the call in `metaval.go` is not modelled (see the
  next item).
- The roles' own task-log writes are not modelled: the task log is
  modelled as a component, but the calls the roles make into it are not
  part of their transitions. These are `executor.go:81, 218, 291, 299`
  (subtask begin, LLM call, tool calls), `agentval.go:203-356` (subtask
  end, criterion verdicts, corrections, LLM call), `metaval.go:202-203,
  226, 322-323, 330` (LLM call, close on accept, replan, close on
  abandon) and `planner.go:240, 262, 472` (open, get, LLM call). They only
  append to a log file and never change what a role decides.
- The planner's progress messages `CCCall` and `CCResponse`
  (`planner.go:488-510`) are not published by the model: they only feed
  the display and change no role's state.
- Text.Lower: ASCII only. `strings.ToLower` also lowers non-ASCII letters,
  so the model differs on them wherever lowering is used: the intent slug
  (`IntentSlug`), memory tokenisation (`MemTokenize`, `KeywordsSpec`) and
  the meta-validator's tag words (`TagWords`).
- Text.IsSpace: ASCII white space only. `strings.TrimSpace` and
  `strings.Fields` also treat Unicode spaces (U+0085, U+00A0 and others)
  as white space, so `TrimSpace` and the functions built on it differ on
  them.
- Text.Quote: wraps the text in double quotes and escapes `"` and `\`
  only. Go's `%q` also escapes control and non-printable characters
  (`\n`, `\t`, `\x..`), which the model leaves as they are.
- FormatBochaResult: requires `DatesOk`, that every non-empty
  `datePublished` has at least 10 bytes. The source slices
  `p.DatePublished[:10]` (`websearch.go:125`) without that check and
  panics on a shorter non-empty date; the model does not cover that panic.
- The perceiver's prompt text and the model-reply parsing are left out.
  Parsing is an oracle that yields understood, needs-clarification or
  failed.
- The Python script's date conversion errors and printing are left out.
  Printing is modelled as the list of lines it would print.

## Findings

| source | as written | input that shows it | evidently intended | confidence | as-written member | corrected member |
|---|---|---|---|---|---|---|
| internal/roles/executor/executor.go:246-260 | the repeat guard compares the new call's signature with the last history entry, but after a tool run that entry is the signature followed by " → " and the evidence | two consecutive identical tool calls whose first run succeeds: the second is executed again | block a call whose signature equals the previous call's signature | not executed | Executor.DuplicateAsWrittenMisses | Executor.ExecuteSpec |
| internal/roles/perceiver/perceiver.go:90-96 | the final committed call's spec is published whatever it is, and a reply that still asks for clarification carries an empty spec | a model that answers needs_clarification on the committed call: a TaskSpec with no task id and no raw input is published | the final call always yields a spec with a task id and the user's input | not executed | Perceiver.FinalAsWrittenLosesId | Perceiver.ProcessWellRun |
