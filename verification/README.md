# Nexus Orchestrator core, modelled in Dafny

Nexus Orchestrator runs a software project through a human-governed pipeline. A human writes a
**Vision Contract**. An **Architect** (a language model) reads it, asks clarifying questions and
proposes system designs. Each proposal stops at a **gate** that a human approves, rejects or
amends. The architect's plan is **decomposed** into builder task contracts, which are leveled
into parallel groups and **dispatched** to builders group by group. Each builder's output
manifest passes a **three-stage review**. Along the way the orchestrator keeps a **journal**, a
**decision lineage** and the **project state**. The **constitution** documents decide what each
session is told.

This project models the `orchestration/` core of that system as pure Dafny functions and
methods over immutable datatypes:

| module | models |
|---|---|
| `Wrappers` | `Option` and `Result` |
| `Text` | the string operations the core relies on: strip, lower, split, join, search and digits |
| `Values` | the JSON-like dictionaries everything is stored as, with list and dictionary codecs |
| `Models` | the enumerations and records of `models.py`, each with its `to_dict` / `from_dict` pair |
| `Vision` | the Vision Contract: its markdown parser, section routing and validation |
| `Project` | the project record, its dictionary form and the status summary |
| `Lineage` | decision recording, artifact lineage chains and project health |
| `Gates` | creating gates, answering them, and turning the answer into a directive |
| `Kahn` | the level-synchronous topological sort inside dependency resolution |
| `Decomposer` | the task-header parser, dependency placeholders, leveling, providers, cost counts |
| `Review` | Stage 1 automated checks, reviewer verdict parsing, Stage 3 integration, verdict |
| `Dispatch` | role configuration, builder output parsing, artifact merge, group-ordered dispatch |
| `Journal` | the journal file's entry format, append, split and recent-entry loading |
| `GateCards` | reading the architect's replies: questions, option cards, the recommended option |
| `Architect` | the design phases: vision intake, system design and the detailed-design request |
| `Constitution` | document lookup, section extraction, context assembly, the task-contract text |

Everything outside the program is a parameter:

- the language-model replies;
- `json.loads`;
- some regular-expression searches, listed under "## Left out";
- ids and clock readings;
- the outcome of `build_architect_context` in review Stage 2, which Review.Stage2ContextFailures ties to Constitution.BuildArchitectContext.

Where the code and its docstrings disagree, the model follows the code. One example is
`compose_verdict`, which lets a reviewer's escalate win over revise.

The shown `models.py` does not define `GateOption`, `GateResponse`, `GateResponseType`,
`BuildResult` or `TierCostEstimate`. It also lacks the `Gate` fields `phase`,
`architect_raw_response` and `recommended_option`. Its `BuilderTaskContract` has no
`depends_on` or `parallel_group` field. These definitions are taken from their uses
in `gate_manager.py`, `architect.py`, `builder_dispatch.py` and `decomposer.py`, and from the
round-trip tests in `tests/test_tier2.py`. The two task fields come from these uses:

- the decomposer sets them (`decomposer.py:259-261` and `decomposer.py:367`);
- dispatch groups by `parallel_group` (`builder_dispatch.py:268`);
- Stage 3 reads `depends_on` (`review_engine.py:237`);
- the tests pass `depends_on=` to the constructor (`tests/test_tier3.py:432` and `tests/test_tier3.py:502`).

Both are stored fields with defaults `[]` and `0`.

## Model

| member | source | states |
|---|---|---|
| Models.PhaseFromValue | orchestration/models.py:21-28 | a string is read as a phase only when it is that phase's value |
| Models.PhaseValueRoundTrip | orchestration/models.py:21-28 | every phase is recovered from its value |
| Models.GateTypeFromValue | orchestration/models.py:31-39 | a string is read as a gate type only when it is that type's value |
| Models.GateTypeValueRoundTrip | orchestration/models.py:31-39 | every gate type is recovered from its value |
| Models.EnumValuesDistinct | orchestration/models.py:42-74 | gate statuses, verdicts, task types, task statuses and response types each have pairwise distinct values |
| Models.DefaultTask | orchestration/models.py:338-360 | a fresh task contract is pending, general, tier 1, with no dependencies and group 0; the last two fields follow their uses at orchestration/decomposer.py:259-261 and :367 |
| Models.TaskRoundTrip | orchestration/models.py:338-363 | reading a task contract's dictionary gives the same contract back, `depends_on` and `parallel_group` included as used at orchestration/decomposer.py:259-261 and orchestration/review_engine.py:237 |
| Models.TaskFromDictIgnoresUnknownKeys | orchestration/models.py:361-363 | keys that are not task fields never change the contract read |
| Models.TaskFromEmptyDict | orchestration/models.py:361-363 | an empty dictionary reads as the default contract |
| Models.GateOptionRoundTrip | tests/test_tier2.py:730-743 | a gate option survives its dictionary form |
| Models.GateResponseRoundTrip | tests/test_tier2.py:745-755 | a gate response survives its dictionary form |
| Models.GateOptionListRoundTrip | tests/test_tier2.py:757-774 | a gate's list of options survives its dictionary form, in order |
| Models.GateRoundTrip | orchestration/models.py:371-389 | a gate, with its options and any response, survives its dictionary form |
| Models.GateFromDictIgnoresUnknownKeys | orchestration/models.py:387-389 | keys that are not gate fields never change the gate read |
| Models.CheckResultRoundTrip | orchestration/models.py:397-405 | a check result survives its dictionary form |
| Models.ReviewResultRoundTrip | orchestration/models.py:409-423 | a review result, checks included, survives its dictionary form |
| Models.DecisionRoundTrip | orchestration/models.py:431-444 | a decision survives its dictionary form |
| Models.ArtifactRoundTrip | orchestration/models.py:448-461 | an artifact, with its lineage, survives its dictionary form |
| Models.TokenUsageRoundTrip | orchestration/models.py:469-479 | token counts, provider and model survive the dictionary form |
| Models.ManifestRoundTrip | orchestration/models.py:510-522 | a builder output manifest survives its dictionary form |
| Models.ManifestFromDictIgnoresUnknownKeys | orchestration/models.py:520-522 | keys that are not manifest fields never change the manifest read |
| Models.HealthRoundTrip | orchestration/models.py:530-540 | project health survives its dictionary form |
| Vision.EmptyVision | orchestration/models.py:163-182 | a new contract keeps the markdown, has fidelity 3 and everything else empty |
| Vision.Selected | orchestration/models.py:194-204 | the listed descriptions are exactly those whose field is empty; none are listed exactly when none is empty |
| Vision.SelectedIff | orchestration/models.py:194-204 | with distinct descriptions, each one is listed exactly when its field is empty |
| Vision.Validate | orchestration/models.py:188-209 | validation fails exactly when a required field is empty and then names exactly the empty ones; the warnings name exactly the empty recommended fields |
| Vision.ValidateFailsIffRequiredEmpty | orchestration/models.py:145-151 | validation fails exactly when the name, the purpose, the primary questions, the in-scope list or the non-negotiables are empty |
| Vision.FirstKeywordMatch | orchestration/models.py:287-330 | the `if/elif` chain: the first row with a keyword in the title wins, else the default |
| Vision.ScopePriority | orchestration/models.py:287-296 | under Scope, "not modeled" beats "out", which beats "in" |
| Vision.NonBlank | orchestration/models.py:264 | keeps every non-blank line and nothing blank |
| Vision.Bullets | orchestration/models.py:265 | no bullet text results exactly when no line is a bullet |
| Vision.BulletsOrLines | orchestration/models.py:278-330 | the bullets when there are any, otherwise the plain lines |
| Vision.IdentityLine | orchestration/models.py:267-276 | an identity line never renames an already named project and touches no other section |
| Vision.IdentityLines | orchestration/models.py:267-276 | the same for a whole identity section |
| Vision.KeyValueLines | orchestration/models.py:281-285 | the feel and time dictionaries keep unique keys |
| Vision.FirstFidelity | orchestration/models.py:304-309 | the level is that of the first word naming 1 to 7, and there is none exactly when no word does |
| Vision.ApplySection | orchestration/models.py:262-330 | an unrecognised section changes nothing; only a fidelity section changes the fidelity, and only to 1..7; well-formedness is kept |
| Vision.NoSectionIgnored | orchestration/models.py:228-235 | text before the first section heading is dropped |
| Vision.EmptyTitleUnrecognised | orchestration/models.py:262-330 | an empty section title selects no field |
| Vision.Flush | orchestration/models.py:228-235 | a flush empties the buffer, keeps the headings, and with nothing buffered changes nothing |
| Vision.StepLine | orchestration/models.py:237-252 | a `## ` line starts a new section with no subsection; a `# ` line before any section names the project |
| Vision.Parse | orchestration/models.py:223-254 | the parsed contract keeps the raw markdown and is well formed |
| Vision.FromMarkdown | orchestration/models.py:212-259 | non-strict parsing never fails; strict parsing fails exactly when validation of the parse fails |
| Vision.FromMarkdownStrict | orchestration/models.py:256-257 | a contract accepted under strict parsing passes validation |
| Vision.TitleNamesProject | orchestration/models.py:248-250 | a document consisting of `# name` names the project `name` |
| Vision.VisionRoundTrip | orchestration/models.py:184-186 | a contract with unique dictionary keys survives its dictionary form |
| Vision.VisionFromDictIgnoresUnknownKeys | orchestration/models.py:184-186 | keys that are not contract fields are ignored |
| Vision.VisionFromEmptyDict | orchestration/models.py:184-186 | an empty dictionary reads as the empty contract |
| Project.NewProject | orchestration/project_state.py:40-116 | a new project is empty, in vision intake at tier 0; an empty id or creation time is replaced by a fresh one |
| Project.ProjectFromEmptyDict | orchestration/project_state.py:152-175 | an empty dictionary reads as a fresh project |
| Project.TaskAssocRoundTrip | orchestration/project_state.py:125-175 | the active-task dictionary survives storage |
| Project.ArtifactAssocRoundTrip | orchestration/project_state.py:125-175 | the artifact dictionary survives storage |
| Project.TaskListRoundTrip | orchestration/project_state.py:125-175 | the task queue and completed tasks survive storage, in order |
| Project.GateListRoundTrip | orchestration/project_state.py:125-175 | the gates survive storage, in order |
| Project.LogRoundTrips | orchestration/project_state.py:125-175 | the decision log and the review results survive storage, in order |
| Project.ProjectRoundTrip | orchestration/project_state.py:125-175 | a project with an id, a creation time and unique keys is read back unchanged from its dictionary |
| Project.ProjectFromDictIgnoresUnknownKeys | orchestration/project_state.py:152-175 | keys that are not project fields are ignored |
| Project.PendingGates | orchestration/project_state.py:282-288 | a gate is listed exactly when it is one of the project's gates and pending |
| Project.PendingGatesCount | orchestration/project_state.py:282-288 | the listed gates are as many as the pending count |
| Project.StatusSummaryAsWritten | orchestration/project_state.py:244-291 | the summary as written fails exactly when some task is active |
| Project.StatusSummaryAsWrittenFails | orchestration/project_state.py:247 | one active task is enough to make it fail |
| Project.StatusSummaryAgrees | orchestration/project_state.py:244-291 | with no active task the corrected summary is the one written |
| Project.InProgressListsActiveTasks | orchestration/project_state.py:264-268 | the corrected "In Progress" section names every active task, in order |
| Project.PendingSectionListsPendingGates | orchestration/project_state.py:280-290 | the closing section has one bullet per pending gate, or "(none)", then the health line |
| Lineage.RecordPhaseDecision | orchestration/lineage.py:121-145 | exactly one decision, carrying the given fields, is appended, and nothing else changes |
| Lineage.DetailEmptyIffUnknownType | orchestration/lineage.py:158-170 | a gate decision's detail is empty exactly for an unknown response type |
| Lineage.RecordGateDecision | orchestration/lineage.py:147-191 | one human decision of the gate's type, with the response detail as rationale, is appended |
| Lineage.MentioningIdsIff | orchestration/lineage.py:194-219 | an id is in the chain's middle exactly when a logged decision with that id names the task or subsystem |
| Lineage.MentioningIdsAppend | orchestration/lineage.py:194-219 | a decision added to the log extends the chain only when it mentions the artifact |
| Lineage.LineageChain | orchestration/lineage.py:194-219 | the chain runs vision, mentioning decisions, task if any, artifact |
| Lineage.RegisterArtifact | orchestration/lineage.py:222-236 | the artifact is stored under its path with its chain, and every other entry stays |
| Lineage.RegisterKeepsWellKeyed | orchestration/lineage.py:222-236 | registering keeps the project's dictionaries free of repeated keys |
| Lineage.WithStatus | orchestration/lineage.py:246-252 | a task is listed exactly when it has the status |
| Lineage.CountStatusIsFilterSize | orchestration/lineage.py:246-252 | the status count equals the number of tasks with that status |
| Lineage.UpdateProjectHealth | orchestration/lineage.py:239-269 | health counts queued plus completed tasks, completed tasks, rejected completed tasks and pending gates, with rejected <= completed <= total; only the health changes |
| Lineage.UpdateHealthIdempotent | orchestration/lineage.py:239-269 | recomputing health changes nothing |
| Gates.NewGate | orchestration/gate_manager.py:43-72 | a new gate is pending in the project's phase, has no response and carries the given content |
| Gates.CreateGate | orchestration/gate_manager.py:43-83 | the gate is appended, becomes the pending gate and the one blocker, and nothing else changes |
| Gates.FindGate | orchestration/gate_manager.py:211-216 | the first gate with the id, or none exactly when no gate has it |
| Gates.FindGateSameIds | orchestration/gate_manager.py:211-216 | updating a gate in place never changes where any id is found |
| Gates.CreatedGateIsFound | orchestration/gate_manager.py:43-83 | a created gate with a fresh id is found under that id and is pending |
| Gates.AnsweredGate | orchestration/gate_manager.py:100-112 | an answer approves unless it rejects, records the response and its time, and records modifications or feedback as conditions |
| Gates.RespondToGate | orchestration/gate_manager.py:85-124 | an unknown id or a non-pending gate is refused; otherwise the gate is answered in place, one human decision is logged and the project is unblocked |
| Gates.RespondOnlyOnce | orchestration/gate_manager.py:85-124 | a second answer to the same gate is refused as not pending |
| Gates.RespondResolvesGate | orchestration/gate_manager.py:85-124 | an answered gate is approved or rejected, rejected exactly for a reject, and no longer pending |
| Gates.BuildResponseMessage | orchestration/gate_manager.py:126-179 | no directive without a response, a non-empty one with |
| Gates.MessageEmbedsPayload | orchestration/gate_manager.py:126-179 | every directive carries the field its response type uses |
| Gates.RespondThenMessage | orchestration/gate_manager.py:126-179 | after an answer, the directive is the one for the stored response |
| Kahn.InDegreeZeroIff | orchestration/decomposer.py:341-359 | a task's counter reaches zero exactly when all its in-set dependencies are taken |
| Kahn.Pigeonhole | orchestration/decomposer.py:360-364 | fewer than n distinct taken tasks leave one out |
| Kahn.Step | orchestration/decomposer.py:341-359 | one round keeps the leveling invariant: taken tasks obey the group rule and the queue is exactly the ready tasks |
| Kahn.FirstLevel | orchestration/decomposer.py:333-335 | the first queue is exactly the tasks without in-set dependencies |
| Kahn.ReleaseOne | orchestration/decomposer.py:350-357 | a task joins the next queue exactly when its last outstanding dependency was just taken |
| Kahn.Level | orchestration/decomposer.py:331-364 | success gives a leveling; failure reports fewer taken than total and a cycle exists |
| Kahn.AllTaken | orchestration/decomposer.py:360-370 | when every task was taken, the order and groups form a leveling |
| Kahn.Untaken | orchestration/decomposer.py:360-364 | the untaken tasks are exactly the in-range ones not in the order |
| Kahn.UntakenClosed | orchestration/decomposer.py:360-364 | the tasks never taken each wait on another task never taken |
| Kahn.LevelingMeansAcyclic | orchestration/decomposer.py:331-364 | a graph that can be leveled has no cycle |
| Kahn.LevelFailsIffCycle | orchestration/decomposer.py:360-364 | the leveling fails exactly on graphs with a dependency cycle |
| Kahn.DependenciesFirst | orchestration/decomposer.py:366-370 | in the output order every dependency comes before its dependent |
| Decomposer.ParseHeader | orchestration/decomposer.py:181-183 | a recognised header starts with TASK and has a non-empty name |
| Decomposer.HeaderRoundTrip | orchestration/decomposer.py:181-183 | a header written `TASK n: "name"` parses back to n and name |
| Decomposer.BlocksFollowHeaders | orchestration/decomposer.py:184-205 | one block per header, in order, with that header's number and name |
| Decomposer.HeadersSkipBody | orchestration/decomposer.py:184-205 | lines that are not headers open no block |
| Decomposer.TaskTypeOf | orchestration/decomposer.py:240-245 | the type is the named one when known, otherwise general |
| Decomposer.DependsField | orchestration/decomposer.py:256-261 | an empty field or "none" gives no entries; every entry is stripped, non-empty and comma-free |
| Decomposer.BuildTaskContract | orchestration/decomposer.py:227-263 | the contract carries the block's name, a known type and the extracted dependencies, pending and unstamped |
| Decomposer.ParseBlocks | orchestration/decomposer.py:207-224 | one task per block with its name, of a known type, unstamped, every placeholder naming a block |
| Decomposer.PlaceholderRoundTrip | orchestration/decomposer.py:306-317 | a placeholder names the position it was made from |
| Decomposer.DigitFreeNotPlaceholder | orchestration/decomposer.py:306-317 | text without digits is never a placeholder |
| Decomposer.LastWithNumber | orchestration/decomposer.py:207-212 | a task number maps to the last block with that number |
| Decomposer.ResolveNumber | orchestration/decomposer.py:213-222 | every entry it yields is either a placeholder naming a parsed block or the stripped text itself, never both |
| Decomposer.RunPlaceholdersOne | orchestration/decomposer.py:214-219 | a number names the last block carrying it and becomes its placeholder; a number no block carries gives nothing |
| Decomposer.RunPlaceholdersConcat | orchestration/decomposer.py:214-219 | the numbers of an entry are resolved one at a time, in order |
| Decomposer.RunPlaceholdersNamed | orchestration/decomposer.py:214-219 | a placeholder is produced for every number that names a block, and for no other number |
| Decomposer.ResolveOneNumber | orchestration/decomposer.py:213-222 | an entry holding one number resolves to the placeholder of the last block with that number, or to nothing |
| Decomposer.DigitsAreOneRun | orchestration/decomposer.py:214 | a bare numeral is its own single digit run |
| Decomposer.ParseTaskContracts | orchestration/decomposer.py:168-224 | one task per header, in order, of a known type, each placeholder naming a parsed task |
| Decomposer.NoHeaderNoTasks | orchestration/decomposer.py:168-224 | a reply without task headers gives no tasks |
| Decomposer.ResolveDep | orchestration/decomposer.py:306-317 | a placeholder in range becomes that task's id, one out of range is dropped, anything else is kept |
| Decomposer.PlaceholderResolves | orchestration/decomposer.py:306-317 | a placeholder for a position in range resolves to the id of the task at that position |
| Decomposer.NumberedDependencyResolves | orchestration/decomposer.py:213-222 | a dependency written as one task number resolves, after parsing and id assignment, to the id of the last task with that number, or to nothing |
| Decomposer.ResolvePlaceholders | orchestration/decomposer.py:306-317 | only the dependencies change, each entry resolved by position |
| Decomposer.DepGraph | orchestration/decomposer.py:319-330 | one node per task; its edges are the in-set dependencies, all in range |
| Decomposer.IdIndex | orchestration/decomposer.py:319-330 | an id maps to the last task with it |
| Decomposer.UnknownIdIgnored | orchestration/decomposer.py:319-330 | a dependency on an id outside the set does not change the graph |
| Decomposer.ResolveDependencies | orchestration/decomposer.py:298-370 | success returns the tasks in a leveling order with their groups; failure happens exactly on a cycle and reports the counts |
| Decomposer.ResolvedOrder | orchestration/decomposer.py:341-370 | every in-set dependency comes earlier in the output with a smaller group |
| Decomposer.ArrangeSorted | orchestration/decomposer.py:366-370 | groups never decrease along the output |
| Decomposer.SelfDependencyIsCycle | orchestration/decomposer.py:360-364 | a task depending on itself makes resolution fail |
| Decomposer.RoleFor | orchestration/decomposer.py:35-50 | the complex builder exactly for the complex task types, otherwise the simple one |
| Decomposer.ProviderLabel | orchestration/decomposer.py:389-398 | "provider/model", the provider alone, or the role name when no provider is configured |
| Decomposer.AssignProviders | orchestration/decomposer.py:377-398 | every task gets its role's label, and nothing else changes |
| Decomposer.NoRolesLabelsByRole | orchestration/decomposer.py:377-398 | with no roles configured, every task is labelled by its role |
| Decomposer.ProviderMix | orchestration/decomposer.py:423-429 | the mix counts each provider key's tasks, with unique keys |
| Decomposer.EstimateCost | orchestration/decomposer.py:418-470 | counts add up to the task count; one driver per non-empty kind; savings advice above 2 complex or 5 simple tasks |
| Decomposer.StampDistinctIds | orchestration/decomposer.py:146-150 | with distinct ids drawn, the stamped tasks carry pairwise distinct ids, and keep their names and dependencies |
| Decomposer.Decompose | orchestration/decomposer.py:124-166 | one task per header, groups non-decreasing along the order, failure exactly on a dependency cycle |
| Review.CheckManifestCompleteness | orchestration/review_engine.py:50-69 | passes exactly when there is a task id and an artifact, with the matching message otherwise |
| Review.FileViolationsArePairs | orchestration/review_engine.py:71-100 | each violation names one artifact and one boundary it touches, and each such pair has one |
| Review.CheckScopeCompliance | orchestration/review_engine.py:71-100 | passes exactly when no artifact touches a boundary, and otherwise lists every violation |
| Review.Violations | orchestration/review_engine.py:71-100 | no violation exactly when no artifact touches any boundary |
| Review.HasTestArtifact | orchestration/review_engine.py:118-124 | true exactly when some artifact path contains "test" |
| Review.CheckTestCoverage | orchestration/review_engine.py:102-131 | fails exactly when there are test criteria and no test artifact |
| Review.CheckConstraintPresence | orchestration/review_engine.py:133-180 | always passes, and warns exactly when some constraint is unreferenced, listing those |
| Review.Unreferenced | orchestration/review_engine.py:159-167 | a constraint is reported exactly when no enforced entry references it |
| Review.CheckIncompleteItems | orchestration/review_engine.py:182-199 | fails exactly when items are incomplete, naming each |
| Review.RunAutomatedChecks | orchestration/review_engine.py:201-216 | five checks in fixed order; Stage 1 fails exactly when the manifest is incomplete, out of scope, untested or has incomplete items |
| Review.InterfaceIssues | orchestration/review_engine.py:218-229 | an issue exactly when interfaces are promised without artifacts |
| Review.DependencyIssues | orchestration/review_engine.py:231-241 | one issue per dependency that is not a completed task |
| Review.UnmetDeps | orchestration/review_engine.py:231-241 | a dependency is unmet exactly when it is not a completed task id |
| Review.DuplicatesFrom | orchestration/review_engine.py:243-265 | no duplicate exactly when no other manifest shares a file |
| Review.OwnTaskNoDuplicates | orchestration/review_engine.py:243-265 | manifests of the same task never clash |
| Review.RunIntegrationCheck | orchestration/review_engine.py:267-283 | no issue exactly when interfaces are backed, dependencies complete and no other task shares a file |
| Review.ParseReviewResponse | orchestration/review_engine.py:327-348 | the leftmost verdict line decides and the notes precede it; with none, accept and the whole text |
| Review.FindVerdict | orchestration/review_engine.py:336-341 | `re.search`: the leftmost verdict match, or none when none exists |
| Review.ResponseRoundTrip | orchestration/review_engine.py:327-348 | notes followed by `VERDICT: w` parse back to the stripped notes and w |
| Review.ComposeVerdict | orchestration/review_engine.py:350-387 | reject exactly on a failed check or a reject; then escalate, then revise, accept only when nothing objects |
| Review.ReviewTask | orchestration/review_engine.py:440-487 | a failed Stage 1 rejects without the reviewer; otherwise Stage 2 needs the architect context, and the review fails with its error exactly when that context cannot be built; when it can, the notes and issues are those of the reviewer, given that context, and of Stage 3 |
| Review.Stage2ContextFailures | orchestration/review_engine.py:489-512 | with the context `build_architect_context` builds, a review past Stage 1 fails exactly when document 07 is missing or, as written, a task is in progress |
| Review.FailedChecksSkipReviewer | orchestration/review_engine.py:458-466 | with a failed Stage 1 the review succeeds whatever the architect context, and does not depend on it, the reviewer or the other tasks |
| Review.WithManifestsComplete | orchestration/review_engine.py:520-530 | every completed task with a manifest takes part |
| Review.WithManifests | orchestration/review_engine.py:532-543 | every pair is a completed task with the manifest loaded for it |
| Review.NewReviews | orchestration/review_engine.py:538-548 | the reviews added are exactly those of completed, loadable, unreviewed tasks |
| Review.ReviewEach | orchestration/review_engine.py:546-548 | a successful run holds one review per pair |
| Review.ReviewEachPointwise | orchestration/review_engine.py:546-548 | the k-th review of a successful run is that of the k-th pair's manifest and task against all loaded manifests, with its own id and clock reading |
| Review.ReviewEachFails | orchestration/review_engine.py:546-548 | the run fails, with the context's error, exactly when the architect context cannot be built and some pair passes Stage 1 |
| Review.ReviewAll | orchestration/review_engine.py:514-550 | a successful run keeps the existing reviews in front |
| Review.ReviewAllFails | orchestration/review_engine.py:514-550 | `review_all` raises the context's error exactly when the architect context cannot be built and some completed, loadable, unreviewed task passes Stage 1 |
| Review.ReviewAllNew | orchestration/review_engine.py:514-550 | a successful run adds a review for each completed, loadable, unreviewed task and for no other |
| Review.ReviewAllAddsEach | orchestration/review_engine.py:538-548 | the added reviews are the run over the unreviewed pairs, in completed order |
| Review.AllReviewedAddsNothing | orchestration/review_engine.py:514-550 | once every completed task is reviewed, a rerun succeeds and adds nothing |
| Dispatch.GetRoleConfig | orchestration/builder_dispatch.py:339-359 | the named role, else the first builder role whose provider occurs in the tag, else builder_complex or the default |
| Dispatch.BodyStartShape | orchestration/builder_dispatch.py:375-377 | the body starts after whitespace that ends in a newline, and no newline follows in the whitespace after it |
| Dispatch.BodyStartNone | orchestration/builder_dispatch.py:375-377 | with no body start, no newline ends the whitespace run |
| Dispatch.JsonBlocksFirst | orchestration/builder_dispatch.py:375-377 | the first block runs from the body start after the first json fence to the first fence after it |
| Dispatch.BodyFenceFree | orchestration/builder_dispatch.py:375-377 | a block, ending at the first fence after its start, holds no fence |
| Dispatch.JsonBlockRoundTrip | orchestration/builder_dispatch.py:375-377 | a fence-free body written between a json fence line and a closing fence is read back as the first block |
| Dispatch.CandidateBalanced | orchestration/builder_dispatch.py:395-415 | the candidate object is the shortest brace-balanced text from its brace |
| Dispatch.CandidateShape | orchestration/builder_dispatch.py:387-413 | the candidate opens with '{', closes with '}', and balances its braces there and nowhere earlier |
| Dispatch.FirstAccepted | orchestration/builder_dispatch.py:378-385 | a position whose block parses to a manifest-like dictionary, or none when no block does |
| Dispatch.FirstAcceptedLeast | orchestration/builder_dispatch.py:378-385 | no block before the position found is accepted, so it is the first one |
| Dispatch.FromBlocks | orchestration/builder_dispatch.py:378-385 | strategy 1 gives no manifest exactly when no block parses to a manifest-like dictionary |
| Dispatch.FromBlocksFirst | orchestration/builder_dispatch.py:378-385 | strategy 1 gives the manifest of the first accepted block, with the task id filled in |
| Dispatch.FromObject | orchestration/builder_dispatch.py:387-417 | strategy 2 gives a manifest exactly when the candidate exists and parses to a dictionary, and then it is that dictionary's manifest |
| Dispatch.WithTaskIdFills | orchestration/builder_dispatch.py:385-387 | a parsed manifest without a task id gets the dispatched task's |
| Dispatch.ParseBuilderOutput | orchestration/builder_dispatch.py:366-425 | the first accepted block's manifest; failing that, the candidate's; failing both, the fallback; anything else is the manifest of some parsed dictionary |
| Dispatch.FencedManifest | orchestration/builder_dispatch.py:366-385 | a reply with a fenced manifest-like body is read as that body's manifest |
| Dispatch.EmptyReplyFallback | orchestration/builder_dispatch.py:420-426 | an empty reply gives the fallback manifest |
| Dispatch.MergeArtifacts | orchestration/builder_dispatch.py:136-149 | existing entries stay in front, and every extracted path ends up named |
| Dispatch.MergeAddsOnlyNew | orchestration/builder_dispatch.py:136-149 | every added entry names a path not named before it |
| Dispatch.DispatchSingle | orchestration/builder_dispatch.py:313-337 | the task comes back completed at the clock reading after the session, and the manifest carries the reading taken when the session ends |
| Dispatch.DispatchRecords | orchestration/builder_dispatch.py:87-157 | the manifest keeps the reply's entries, names every code file, and records session and token usage under the task's role |
| Dispatch.DispatchOrder | orchestration/builder_dispatch.py:265-281 | every queued task exactly once, groups ascending, queue order within a group |
| Dispatch.GroupKeys | orchestration/builder_dispatch.py:266-279 | the queue's distinct groups, strictly ascending |
| Dispatch.ConcatCovers | orchestration/builder_dispatch.py:266-281 | the groups taken in ascending order hold each task exactly once, in group order |
| Dispatch.Totals | orchestration/builder_dispatch.py:283-291 | token counts are summed and items and questions gathered in manifest order |
| Dispatch.DispatchAll | orchestration/builder_dispatch.py:255-304 | one manifest per task in dispatch order, totals over them, no failures, and every queued task completed |
| Journal.Bar | orchestration/journal.py:16 | the separator bar is sixty '=' |
| Journal.FormatEntry | orchestration/journal.py:45-66 | every entry opens with the template header and is not blank |
| Journal.FormatDefaultEntry | orchestration/journal.py:45-66 | an entry with the optional fields at their defaults still opens with the header |
| Journal.AppendEntry | orchestration/journal.py:69-82 | the old text is kept in front, a separator is added exactly when it is not blank, and the entry and a newline end the file |
| Journal.LoadEntries | orchestration/journal.py:85-100 | a missing or blank file has no entries; every entry is stripped and non-empty |
| Journal.TailRoundTrip | orchestration/journal.py:94-100 | the written entries split back apart after the file is right-stripped |
| Journal.LoadWritten | orchestration/journal.py:69-100 | entries written by successive appends load back stripped and in order |
| Journal.LoadAfterAppend | orchestration/journal.py:69-100 | one more append adds exactly that entry at the end of the load |
| Journal.TwoAppends | orchestration/journal.py:69-100 | two appends to a missing file load back as the two entries |
| Journal.FormatEntryClean | orchestration/journal.py:18-66 | an entry whose fields hold no separator-length run can be written and read back |
| Journal.PySliceFrom | orchestration/journal.py:106 | Python's `xs[start:]` for negative and positive starts |
| Journal.LoadRecentAsWritten | orchestration/journal.py:103-106 | as written: some suffix of the entries |
| Journal.LoadRecent | orchestration/journal.py:103-106 | exactly the last `count` entries, none for a count of zero or less |
| Journal.RecentZeroAsWritten | orchestration/journal.py:106 | as written, a count of 0 returns every entry |
| Journal.RecentAgrees | orchestration/journal.py:103-106 | for positive counts the two agree |
| Journal.JournalPath | orchestration/journal.py:109-111 | the journal lives at `<projects>/<project>/architect_journal.md` |
| GateCards.QuestionOf | orchestration/architect.py:425-436 | every extracted question is longer than ten characters and ends in '?' |
| GateCards.QuestionsIff | orchestration/architect.py:425-436 | a string is extracted exactly when some reply line yields it |
| GateCards.QuestionsInOrder | orchestration/architect.py:425-436 | questions keep the order of their lines |
| GateCards.ExtractQuestions | orchestration/architect.py:425-436 | an empty reply has no questions; every extracted one is question text |
| GateCards.ParseHeader | orchestration/architect.py:447-450 | an option header has an upper-case letter and a non-empty name |
| GateCards.HeaderRoundTrip | orchestration/architect.py:447-450 | `OPTION X: "name" rest` parses back to its letter, name and rest |
| GateCards.CardsFollowHeaders | orchestration/architect.py:438-483 | one card per header line, in order |
| GateCards.CardsCoverLines | orchestration/architect.py:438-483 | every line from the first header on is a header or in exactly one card |
| GateCards.BodiesHoldNoHeader | orchestration/architect.py:438-483 | no card body line opens a header |
| GateCards.FieldOfFirstLine | orchestration/architect.py:526-534 | a value on its label's line, ended properly, is read back stripped |
| GateCards.BuildGateOption | orchestration/architect.py:485-524 | the option carries its header's letter and name, is recommended exactly when marked, with a non-negative subsystem count |
| GateCards.ParsedOptionsFollowHeaders | orchestration/architect.py:438-483 | option k carries the k-th header's letter and name and its recommendation mark |
| GateCards.ParsedLettersUpper | orchestration/architect.py:438-483 | every option letter is one upper-case letter |
| GateCards.ParseGateOptions | orchestration/architect.py:438-483 | an empty reply has no options |
| GateCards.SubsystemsOfCard | orchestration/architect.py:505-510 | a `Subsystems: n` line gives the count n |
| GateCards.Leftmost | orchestration/architect.py:559-566 | `re.search` finds the leftmost match position |
| GateCards.FirstRecommended | orchestration/architect.py:553-556 | the first option marked recommended, none exactly when no option is marked |
| GateCards.FindRecommendedWith | orchestration/architect.py:551-567 | the marked option's letter; else a letter of the allowed class found in the reply, or nothing |
| GateCards.FindRecommendedAsWritten | orchestration/architect.py:551-567 | as written, the fallback letter may be any letter of the reply, either case |
| GateCards.AsWrittenReadsWordAsLetter | orchestration/architect.py:559 | as written, "recommend option because" names option "b" |
| GateCards.FindRecommended | orchestration/architect.py:551-567 | the first marked option's letter; else an upper-case letter of the reply, or nothing |
| GateCards.IntendedNeedsUpperCase | orchestration/architect.py:559-566 | with no marked option and no upper-case letter, no option is recommended |
| GateCards.IntendedReadsNoLetter | orchestration/architect.py:559 | the same reply names no option |
| Architect.AppendPhaseJournal | orchestration/architect.py:581-595 | the journal ends with the phase's entry |
| Architect.PhaseEntry | orchestration/architect.py:581-595 | the phase entry opens with the journal header and is not blank |
| Architect.PhaseEntryClean | orchestration/architect.py:581-595 | a phase entry built from clean texts can be read back |
| Architect.VisionText | orchestration/architect.py:240-242 | the markdown is sent unless it is empty, when the JSON form is |
| Architect.DirectiveOf | orchestration/architect.py:294-296 | a directive is sent exactly when the gate has a response |
| Architect.RunVisionIntake | orchestration/architect.py:224-283 | vision intake opens one pending vision gate carrying the reply's questions, sends the vision, and journals once |
| Architect.ProcessVisionResponse | orchestration/architect.py:285-304 | the directive goes out only with a response, and the phase becomes system design |
| Architect.RunSystemDesign | orchestration/architect.py:306-375 | opens one pending design gate with the reply's options and a recommended letter that is empty or one letter: of either case as written, upper case as corrected |
| Architect.RecommendedIsLetter | orchestration/architect.py:354-364 | the recommended option is empty or one letter of the class read: either case as written, upper case as corrected |
| Architect.ProcessDesignResponse | orchestration/architect.py:377-423 | the choice goes out, a non-empty reply becomes the template, and the phase becomes detailed design |
| Architect.PhaseJournalGrows | orchestration/architect.py:581-595 | each phase adds exactly its entry to a readable journal |
| Architect.VisionIntakeJournal | orchestration/architect.py:274-278 | vision intake adds exactly its entry to a readable journal |
| Architect.SystemDesignJournal | orchestration/architect.py:366-370 | system design adds exactly its entry to a readable journal, whether the recommended letter it records is upper- or lower-case |
| Architect.DesignResponseJournal | orchestration/architect.py:409-413 | the design response adds exactly its entry to a readable journal |
| Architect.DesignPhases | orchestration/architect.py:224-423 | the design phases in turn leave two new gates, the design one pending, and send the vision, the vision directive, the design prompt and the detail request, in order |
| Constitution.GetDoc | orchestration/constitution.py:140-144 | a loaded document's text, otherwise an error naming the number and the loaded ones |
| Constitution.GetDocSection | orchestration/constitution.py:146-154 | the section, as written or corrected, or the whole document when that section is empty, so a non-empty document never gives "" |
| Constitution.CloseAfter | orchestration/constitution.py:360-366 | a section ends at the next heading of its level or higher |
| Constitution.Spans | orchestration/constitution.py:324-381 | every captured block opens on a matching heading and holds no heading of its level or higher |
| Constitution.SectionBlocksAreSpans | orchestration/constitution.py:348-381 | the corrected loop captures exactly the heading-delimited spans |
| Constitution.AsWrittenDropsSubheading | orchestration/constitution.py:354-373 | as written, an unmatched subsection heading is dropped from its section |
| Constitution.AsWrittenRestartsAtSubheading | orchestration/constitution.py:367-373 | as written, a matched subsection heading discards the section's opening lines |
| Constitution.SectionKeepsSubheading | orchestration/constitution.py:354-373 | corrected, the section is kept whole, subsection and all |
| Constitution.ExtractSection | orchestration/constitution.py:324-333 | a key without patterns gives "" |
| Constitution.ExtractSectionIsSpans | orchestration/constitution.py:348-381 | for ordinary keys the section is the spans joined by blank lines |
| Constitution.PrinciplesAreHeadingLines | orchestration/constitution.py:336-341 | the principles summary is exactly the document's heading lines, in order |
| Constitution.CategoryHeadingsKept | orchestration/constitution.py:384-413 | the category index keeps every category heading in order; other lines are verb counts |
| Constitution.CategoryIndexHeadings | orchestration/constitution.py:344-345 | the category-index key gives that index |
| Constitution.PhaseDocsIff | orchestration/constitution.py:45-70 | every phase, and nothing else, has documents |
| Constitution.TaskDocsIff | orchestration/constitution.py:73-98 | only the general and unknown task types have no documents |
| Constitution.PhaseKeysHavePatterns | orchestration/constitution.py:298-321 | every section key in the phase table has patterns |
| Constitution.TaskKeysHavePatterns | orchestration/constitution.py:298-321 | every section key in the task table has patterns |
| Constitution.TableSkipsUnloaded | orchestration/constitution.py:213-226 | documents that are not loaded contribute nothing |
| Constitution.ContextSection | orchestration/constitution.py:213-226 | a section exists exactly when its table row is non-empty, with a header and a body per loaded document |
| Constitution.TableParts | orchestration/constitution.py:213-226 | a header and a body for each loaded document |
| Constitution.JournalParts | orchestration/constitution.py:202-206 | nothing without entries, else a header and at most three entries |
| Constitution.JournalRecentOnly | orchestration/constitution.py:202-206 | only the last three journal entries reach the context |
| Constitution.TemplateParts | orchestration/constitution.py:194-200 | the project's template, else document 02 when loaded, else nothing |
| Constitution.ArchitectParts | orchestration/constitution.py:160-228 | the context needs document 07 and, as written, no task in progress; a missing document 07 is the error reported first |
| Constitution.ArchitectPartsShape | orchestration/constitution.py:176-210 | a built context carries document 07 and the vision in fixed places and the corrected status summary after them |
| Constitution.StatusPart | orchestration/constitution.py:208-210 | the status block fails exactly when it is read as written with a task in progress |
| Constitution.StatusPartIsSummary | orchestration/constitution.py:208-210 | whenever the status block is produced, it is the corrected summary |
| Constitution.BuildArchitectContext | orchestration/constitution.py:160-228 | the architect context exists exactly when document 07 is loaded and, as written, no task is in progress |
| Constitution.ArchitectRecentOnly | orchestration/constitution.py:202-206 | the architect context ignores all but the last three entries |
| Constitution.ArchitectPhaseSection | orchestration/constitution.py:213-226 | the phase section is present exactly for real phases |
| Constitution.BuilderWith | orchestration/constitution.py:234-279 | banner, preamble when document 00 is loaded, the contract, then the task section when the type has one |
| Constitution.BuilderBase | orchestration/constitution.py:234-262 | banner, preamble when document 00 is loaded, then the contract last |
| Constitution.BuilderTaskSection | orchestration/constitution.py:263-277 | general and unknown types get no task section; the others get their loaded documents |
| Constitution.ContractLines | orchestration/constitution.py:416-477 | 33 fixed lines plus one per list item |
| Constitution.ContractLinesFront | orchestration/constitution.py:416-432 | the contract opens with its title and task id and lists the inputs right after "Inputs:" |
| Constitution.ContractLinesBack | orchestration/constitution.py:467-477 | the test criteria follow "Test Criteria:" as unchecked boxes, three lines before the end |
| Constitution.ValidateArchitectOutput | orchestration/constitution.py:285-287 | the stub accepts every output |
| Constitution.ValidateBuilderOutput | orchestration/constitution.py:289-291 | the stub accepts every output |

## Left out

- Text.Strip, Text.Lower: Python's `str.strip`, `lower`, `isdigit`, `\s` and `\w` are modelled on ASCII only. Whitespace is the ASCII set Python uses, `\x1c`-`\x1f` included; non-ASCII whitespace such as `\x85` or `\u00a0` is not.
- Text.SplitLines: `splitlines()` splits on `'\n'` alone.
- The regular-expression searches are function parameters:
  - `_extract_simple_field` and `_extract_bullet_list` in `decomposer.py`;
  - `_extract_bullet_list` in `architect.py`;
  - `extract_code_artifacts`;
  - the constitution's section patterns, applied through `re.search`.
- `json.loads` and `VisionContract.to_json` are parameters.
- Review.ReviewAll: when Stage 2 raises for one task, the reviews of earlier tasks in the same run have already been saved to disk (review_engine.py:485). The model returns only the error, because saving is file I/O.
- All file I/O is left out, because the model is pure:
  - saving and loading projects, gates, reviews, manifests, task contracts and sessions;
  - `list_gates` and `_load_docs`;
  - the JSONL appends of `lineage.py`.

  The journal is modelled as the file's text.
- The prompt texts are not modelled, because they are fixed prose:
  - `DECOMPOSITION_PROMPT`;
  - `_build_review_prompt`;
  - `_build_execution_prompt`;
  - the architect's phase prompts.
- The architect and builder sessions, connectors and message injection are left out. They are foreign calls, so their replies are parameters.
- Decomposer.EstimateCost: the float token and cost figures of `_estimate_cost` are left out; the counts, mix, drivers and savings advice are modelled.
- Lineage.UpdateProjectHealth: `total_cost`, a float the source always leaves at 0.0, is left out.
- Dispatch.DispatchAll: the float `total_cost` is left out.
- Dispatch.DispatchAll: `failed_count` is always 0, because no dispatch fails. A builder exception is not modelled.
- Dispatch.DispatchAll: `asyncio.gather` over a group is modelled as a sequential map in queue order.
- `cost_tracker.py` is not part of this model.
- `get_pending_gate` is a plain field read.
- `generate_id` and the clock are parameters.
- `BuilderArtifact` and `IncompleteItem` are not separate records. Manifest artifacts and incomplete items stay generic dictionary values, because the core reads them only through `.get`.
- Project.ProjectRoundTrip requires an id, a creation time and unique dictionary keys. Without an id or creation time, the constructor draws fresh ones.
- Models.TokenUsageRoundTrip: the float field `estimated_cost` of `TokenUsage` is left out, because the value model has no floating point; the round trip covers the other four fields.
- Values.AsStr, Values.AsInt, Values.AsBool, Values.AsOptStr, Values.AsList, Values.AsStrList, Values.AsStrListOpt: the `from_dict` readers of the source keep a value of the wrong JSON type as it is (a string where an int is declared, say). The model reads the field's default instead, because its typed records cannot hold a value of another type. The round trips are unaffected, since `to_dict` writes every field with its declared type.
- Constitution.GetDocSection, Constitution.ArchitectParts, Constitution.BuildArchitectContext, Constitution.BuildBuilderContext, Architect.RunSystemDesign, Architect.DesignPhases: an `asWritten` flag selects the source's behaviour or the corrected one of the findings below; `true` is the program as written.
- Vision.VisionRoundTrip requires unique keys in the feel and time dictionaries. A repeated key cannot survive a Python dictionary either.

## Findings

| source | as written | input that shows it | evidently intended | confidence | as-written member | corrected member |
|---|---|---|---|---|---|---|
| orchestration/project_state.py:247 | `for t, _ in self.active_tasks.items()` binds `t` to the key, a string, and reads `t.task_name` | any project with one active task | list the names of the active tasks | not executed | Project.StatusSummaryAsWritten, Project.StatusSummaryAsWrittenFails, Constitution.ArchitectFailsWhileActive, Review.Stage2ContextFailures | Project.StatusSummary, Project.InProgressListsActiveTasks |
| orchestration/constitution.py:354-373 | only a heading of the capture's level or higher closes the open section; a deeper heading is dropped from the capture when it matches no pattern, and restarts the capture, discarding the lines so far, when it matches one | the lines `## Flows`, `intro`, `### Detail`, `steps` under key `flows` | a section keeps its subsections up to the next heading of its level | not executed | Constitution.AsWrittenDropsSubheading, Constitution.AsWrittenRestartsAtSubheading | Constitution.SectionKeepsSubheading, Constitution.SectionBlocksAreSpans |
| orchestration/journal.py:106 | `entries[-count:]` | count 0 returns every entry | no entries for a count of 0 | not executed | Journal.LoadRecentAsWritten, Journal.RecentZeroAsWritten | Journal.LoadRecent, Journal.RecentAgrees |
| orchestration/architect.py:559 | `[A-Z]` compiled with `re.IGNORECASE` | the reply "recommend option because" recommends option "b" | only an upper-case option letter | not executed | GateCards.FindRecommendedAsWritten, GateCards.AsWrittenReadsWordAsLetter | GateCards.FindRecommended, GateCards.IntendedReadsNoLetter |
