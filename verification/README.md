# Nexi decision engine: verified model

Nexi turns a request into an execution: it interprets the request, generates candidate plans, filters
them by policy, scores and rescores them, selects one, compiles it, submits it for a verdict and
dispatches it. Around that pass run a goal loop with an error budget, two caches, a tolerant reader for
commented configuration files, a merger of tool lists, a model router and an evaluation harness. This
project models these parts in Dafny and proves what they keep over every input, every run and every
behaviour of the remote peers.

How the model is built:

- `DecisionPass` is the pass. The peers are a `World` whose replies are arbitrary functions of everything
  that happened before, so a lemma about every `World` holds for every pattern of replies and failures. A
  pass leaves a `Log` of context reads, submissions, dispatches, stub outcomes and recorded outcomes.
  `RunPipelinePass` is the imperative pass with its mutable session; it is proved to compute `Pass`.
- `PassProtocol` states the protocol as rules on the log: `Permitted` says what may happen next,
  `Obliged` where a pass may not stop, `Explains` how the outcome reads off the events. `PassSafety` follows
  a plan from generation to dispatch.
- `PolicyFilter`, `PlanCompiler`, `Evaluator` and `Selector` are the stages; `StableSort` and `OrderedDict`
  are Python's stable sort and insertion-ordered dictionary, with their own laws.
- `GoalDriver`, `IntentCache` and `PromptCache` are state machines: a class whose methods update a
  dictionary, a function for one step, and closed forms for the dictionary after any history.
- `Jsonc`, `ToolMerge`, `ModelRouter`, `OptionGeneration` and `EvalHarness` model one component each.

Scores and fractions are exact reals; rounding to four decimals is exact half-to-even. Hashes are taken
as injective and modelled by the text they digest. Identifiers are supplied from outside.

Where the code departs from its documentation or from what one would expect, the model follows the code:

- Low confidence never escalates, although the repository's documentation of step 6 says it does: `Selector.EscalatesOnlyWhenEmpty`.
- A projected violation never lowers an option's score, because risk has a positive weight:
  `Evaluator.ViolationNeverLowers`.
- The verdict obtained after an expired token is not checked for a block again. `PassProtocol` gives the exact
  condition, read off the log (`BlockAfterExpiryIsNotChecked`) and off the peers' replies
  (`BlockIsDispatchedExactly`), and `PassSafety.BlockIsDispatchedSomewhere` gives a concrete run.
- The trailing-comma pass ignores string boundaries: `Jsonc.StripCanDamageALiteral` shows a literal that loses
  its comma, and `Jsonc.ReaderKeepsLiteralsExactly` and `Jsonc.StripKeepsLiteralsExactly` say exactly when every
  literal is kept. Nor is it a projection: `Jsonc.StripTwice` says exactly when a second reading changes nothing.
- The prompt cache confuses an absent fact list with the single fact `<auto>`, an empty list with one empty fact,
  and a fact that holds the unit separator with the pieces it separates; these are its only collisions
  (`PromptCache.KeysEqualExactly`).
- A non-positive error limit of the goal driver acts as a limit of one (`GoalDriver.CounterClosedForm`).
- Two dictionary entries with the same first key can hide a discovered tool (`ToolMerge.RepeatedKeyHidesAName`).
  For every base it is proved exactly which names are shown (`ToolMerge.MentionedExactly`) and exactly when a
  second merge changes nothing (`ToolMerge.MergeIsIdempotentExactly`).

## Model

| member | source | states |
|---|---|---|
| Jsonc.StripJsonc | character/persona_builder.py:84-121 | the scanner loop with its index and two flags, followed by the substitution, computes `Strip` |
| Jsonc.DropTrailingCommas | character/persona_builder.py:120 | the left-to-right search for matches computes the substitution |
| Jsonc.ScanUndoesInsertion | character/persona_builder.py:84-118 | for any document of code chunks and string literals with block comments anywhere and line comments before a newline or the end, the scanner returns the document without its comments, every literal unchanged |
| Jsonc.OpenBlockIsDropped | character/persona_builder.py:109-113 | a block comment that never ends takes the rest of the text with it |
| Jsonc.ScanLeavesNoOpener | character/persona_builder.py:84-118 | for every text, unterminated strings and comments included, the output has no comment opener outside strings |
| Jsonc.ScanFixedPoint | character/persona_builder.py:84-118 | a text is returned unchanged exactly when it has no comment opener outside strings |
| Jsonc.ScanIsProjection | character/persona_builder.py:84-118 | scanning twice equals scanning once, for every text |
| Jsonc.SubstituteMeaning | character/persona_builder.py:119-120 | the substitution deletes exactly the commas whose next character that is not white space closes a bracket, and keeps every other character in order |
| Jsonc.SubstituteFixedPoint | character/persona_builder.py:119-120 | it leaves a text alone exactly when no comma stands before a closer, inside strings too |
| Jsonc.StripUndoesInsertion | character/persona_builder.py:84-121 | the whole reader returns the plain document minus its trailing commas, and the plain document itself exactly when no comma in it, inside or outside strings, stands before a closer |
| Jsonc.StripTwice | character/persona_builder.py:84-121 | reading twice equals reading once exactly when no comma stands right before a trailing comma in the comment-free text |
| Jsonc.StripIsNotAProjection | character/persona_builder.py:119-121 | two commas before a brace need two readings |
| Jsonc.StripCanDamageALiteral | character/persona_builder.py:119-121 | a string literal holding a comma and a brace loses its comma |
| Jsonc.StripRespectsLiteralsExactly | character/persona_builder.py:84-121 | for every text the reader's result is that of a comma pass confined to code exactly when no string of the comment-free text holds a comma before a closer |
| Jsonc.DropInCodeKeepsLiterals | character/persona_builder.py:119-120 | the pass confined to code changes no string character |
| Jsonc.StripKeepsLiteralsExactly | character/persona_builder.py:84-121 | for every text the reader keeps all string contents of the comment-free text under the same condition and no other |
| Jsonc.ReaderKeepsLiteralsExactly | character/persona_builder.py:84-121 | the reader returns every literal of a commented document unchanged exactly when no literal holds a comma whose next character that is not white space closes a bracket |
| Jsonc.CommaBeforeCloserIsDropped | character/persona_builder.py:119-121 | in a comment-free text a comma is dropped when only blanks, tabs, line feeds and carriage returns stand between it and a closing brace or bracket; what is before it and behind the closer is read as if it stood alone |
| Jsonc.CommaBeforeItemIsKept | character/persona_builder.py:119-121 | a comma is kept when any visible ASCII character but a closing brace or bracket follows such white space |
| Text.AsciiSpaces | character/persona_builder.py:120 | of the ASCII characters the pattern's white space is the blank, tab, line feed, carriage return, vertical tab, form feed and the four separators |
| Text.TrimMeaning | pipeline/intent_interpreter.py:40-107 | stripping takes white space off both ends, and all of it |
| StableSort.SortProperties | pipeline/selector.py:22 | the reversed sort returns a descending permutation |
| StableSort.SortStable | pipeline/evaluator.py:147 | elements of equal key keep their order under the reversed sort |
| PolicyFilter.Filter | pipeline/policy_filter.py:17-55 | the loop over the responses computes the survivors, the all-blocked exit, or the lookup failure on an unknown id |
| PolicyFilter.SurvivorsStem | pipeline/policy_filter.py:31-46 | every survivor stems from a response that does not block and from the option it names, with the replaced spec exactly for a modifying response that carries one |
| PolicyFilter.UnblockedSurvive | pipeline/policy_filter.py:31-46 | every response that does not block leaves a survivor |
| PolicyFilter.SurvivorsInOrder | pipeline/policy_filter.py:29-46 | the candidates carry, in order, exactly the responses that do not block |
| PolicyFilter.SurvivorsNameTheLast | pipeline/policy_filter.py:24-40 | of several options with one id the last is the one a candidate is made of |
| PolicyFilter.SurvivorsCounted | pipeline/policy_filter.py:29-46 | survivors and blocked responses add up to the responses |
| PolicyFilter.AllBlockedExactly | pipeline/policy_filter.py:51-55 | the filter gives up exactly when every response blocks |
| PlanCompiler.Compile | pipeline/plan_compiler.py:21-47 | compilation fails exactly for an empty type or target, and else yields exactly one node with the option's target and parameters and its type letter by letter in capitals |
| PlanCompiler.UpperOnlyChangesCase | pipeline/plan_compiler.py:37 | the upper-cased type differs from the original in case only |
| Evaluator.Round4Properties | pipeline/evaluator.py:124 | rounding is monotone, stays in the unit interval and moves a value by at most half a unit of the fourth decimal |
| Evaluator.Round4IsNearest | pipeline/evaluator.py:124 | rounding returns the nearest multiple of a ten-thousandth, and of two equally near the even one |
| Evaluator.SignatureText | utils/context_signature.py:4-20 | the signature names class, action, entity and role in small letters in this order, and fails exactly without an action or an entity |
| Evaluator.RiskInTwentieths | pipeline/evaluator.py:30-63 | irreversibility, the entity's sensitivity, up to four side effects and an agent count as documented, and the sum is cut at one |
| Evaluator.RiskSaturatesExactly | pipeline/evaluator.py:51-63 | the clamp to one cuts in exactly for the listed combinations of entity, irreversibility, side effects and agent; for files and unnamed entities never |
| Evaluator.RiskGrows | pipeline/evaluator.py:51-63 | irreversibility, side effects and an agent actor only raise the risk, which lies between the entity's sensitivity and one |
| Evaluator.OutcomeIsFirstMatch | pipeline/evaluator.py:36-48 | the outcome score is the product of the first matching pattern, or neutral without one |
| Evaluator.FitIsCoverage | pipeline/evaluator.py:66-73 | the context fit is one exactly when every declared constraint is a parameter |
| Evaluator.ScoresInUnit | pipeline/evaluator.py:23-73 | all four scores lie in the unit interval for every option, verdict, role and entity class |
| Evaluator.DotIsLinear | pipeline/evaluator.py:102-107 | each score enters the composite with its own weight and nothing else does |
| Evaluator.DotInUnit | pipeline/evaluator.py:102-124 | for convex weights the composite and its rounding lie in the unit interval |
| Evaluator.DefaultsAreConvex | pipeline/evaluator.py:16-21 | the built-in weights are non-negative and sum to one |
| Evaluator.Score | pipeline/evaluator.py:83-131 | the scoring loop returns all records, each composite formed with the fetched weights under their own names or with the four numbers of the intent class, or fails when a weight is missing, or a signature or a record's validation fails |
| Evaluator.ScoreAllShape | pipeline/evaluator.py:91-127 | there is one record per candidate, in order, and scoring raises exactly when it raises for some candidate |
| Evaluator.ScoredAsConfigured | pipeline/evaluator.py:83-190 | every composite is the rounded sum of the four scores times the configured weights, and resolving the weights fails exactly when one of the four keys is missing |
| Evaluator.RecordMeans | pipeline/evaluator.py:23-127 | a record carries its candidate's id and verdict, the score of that verdict, the product of the first pattern of its signature, its risk, and the share of the constraints that are parameters |
| Evaluator.ScoringNeverRejects | pipeline/evaluator.py:93-127 | with convex weights and unit patterns scoring fails only for an empty action type or entity class: the validated records are never rejected |
| Evaluator.SimulatedExactly | pipeline/evaluator.py:51-113 | simulation is required exactly for irreversible options, agents, databases, schemas, clusters, models with a side effect and services with three |
| Evaluator.BetterVerdictScoresMore | pipeline/evaluator.py:23-28 | a better dry-run verdict on the same option scores more and never lowers the composite |
| Evaluator.SimulateAndRescore | pipeline/evaluator.py:133-175 | the loop over the chosen records updates the dictionary of records to `Rescored` |
| Evaluator.TopTwoDominates | pipeline/evaluator.py:142-147 | two records are chosen, or all that require simulation when they are fewer; each requires it, and none left out that requires it scores higher |
| Evaluator.TopTwoBreaksTies | pipeline/evaluator.py:142-147 | of two records of equal composite that require simulation the one met first is chosen whenever the other is |
| Evaluator.RescoringFrame | pipeline/evaluator.py:133-175 | for distinct ids and an arbitrary projector, ids and order stay, at most two records change, and a record changes exactly when it is chosen and its option violates |
| Evaluator.RescoringStaysConsistent | pipeline/evaluator.py:157-171 | every record keeps its bounds and its composite stays the rounded product of its scores and weights |
| Evaluator.RescoredStems | pipeline/evaluator.py:150-175 | for any ids every rescored record is a scored one, or a simulated one whose option violates, with risk and composite renewed |
| Evaluator.ViolatesExactly | pipeline/evaluator.py:148-157 | a record violates exactly when the projection reports the last candidate of its id |
| Evaluator.RescoringKeepsIds | pipeline/evaluator.py:150-175 | with repeated ids too the same options are named, and records are lost exactly when a simulation is due and two records share an id |
| Evaluator.ViolationNeverLowers | pipeline/evaluator.py:157-171 | a projected violation raises only the risk, by three tenths and at most to one, and never lowers the composite |
| Evaluator.ShippedProjectorIsIdentity | pipeline/evaluator.py:177-180 | with the shipped projector rescoring changes nothing |
| Selector.SelectsEarliestBest | pipeline/selector.py:22-51 | the sort-based choice is the earliest record of greatest composite, and the confidence its rounded lead over the runner-up, or its composite when alone |
| Selector.EscalatesOnlyWhenEmpty | pipeline/selector.py:24-51 | selection escalates exactly for an empty list, and the decision reports the list, the counts, the path and the version it was given |
| Selector.ConfidenceInUnit | pipeline/selector.py:27-48 | for records within bounds the confidence lies in the unit interval |
| Selector.PredictedIsMaximum | pipeline/run.py:144-148 | with distinct ids the predicted score submitted is the greatest composite |
| DecisionPass.RunPipelinePass | pipeline/run.py:36-228 | the imperative pass, with its retries and its updates of the session version, has the outcome, log and final version of `Pass` |
| DecisionPass.DispatchExecution | pipeline/dispatch.py:19-70 | one hand-off: missing token, expiry, rejection, acceptance, and the unreachable runner with its stub outcome |
| PassProtocol.EveryPassIsLawful | pipeline/run.py:150-228 | for every pass and every pattern of replies: every event is permitted where it stands, there are at most three submissions and two dispatches, no duty is left open, all of them carry the same decision, spec, payload hash and goal, and the outcome is the one the events explain |
| PassProtocol.FinishConcludes | pipeline/run.py:150-228 | from the first submission on: it carries the session's version, a resubmission the version just reread, each dispatch the non-empty token of the latest verdict, and an executing outcome names the dispatch that was taken or met an unreachable runner with exactly one stub outcome |
| PassProtocol.HandOffKeeps | pipeline/dispatch.py:28-70 | one hand-off keeps the protocol: at most one dispatch, exactly one stub outcome after a connect error and none otherwise |
| PassProtocol.EveryOutcomeIsRecordedOnce | pipeline/run.py:54-222 | every return, HTTP error and clarification is recorded exactly once under its own label, any other exception not at all |
| PassProtocol.BlockAfterExpiryIsNotChecked | pipeline/run.py:185-212 | read off the log: a pass dispatches on a blocking verdict exactly when the resubmission after an expired token was answered by a block with a token |
| PassProtocol.BlockIsDispatchedExactly | pipeline/run.py:150-212 | read off the peers' replies: exactly when a job is prepared, its first verdict does not block and has a token, that token expires at the runner, and the next submission is answered by a block with a token |
| PassProtocol.BlockCanBeDispatched | pipeline/run.py:198-212 | for every prepared job there are peers that bring this about |
| PassSafety.DeadExits | pipeline/run.py:101-139 | once the filter returned and scoring did not raise, selection does not escalate, the selected option is found and the plan has its one node; the pass stops only when the option lacks type or target |
| PassSafety.UnreachableOutcomes | pipeline/run.py:82-139 | no pass ends for a missing option, and before the verdict only the filter escalates |
| PassSafety.EarlyExits | pipeline/run.py:49-91 | a request for clarification, a refused request, a missing context, a failed generation or dry run, an answer that names no option, and answers that all block: each ends the pass with its own outcome, hold identifier, events and version |
| PassSafety.OutcomesExactly | pipeline/run.py:49-139 | read off the replies: exactly when a pass asks for clarification, ends with 503, escalates, crashes or ends with 422 before any submission |
| PassSafety.EscalationsExactly | pipeline/run.py:86-188 | a pass escalates exactly when every answer blocks or its first verdict does, and returns the hold identifier drawn for it |
| PassSafety.BlockEscalates | pipeline/run.py:150-188 | a blocking first verdict ends a prepared pass at once, with its hold identifier and the version and events of that verdict |
| PassSafety.RecordsAreConfigured | pipeline/run.py:65-99 | for any ids every record of a decision reads its scores off one candidate, the actor's role, the manifest and the fetched weights, its risk raised only after a projected violation of its id; scoring raises exactly when a weight is missing or a candidate's record fails |
| PassSafety.SubmittedPlanStems | pipeline/run.py:82-212 | whatever the dry runs answer, everything submitted or dispatched is the compiled plan of a generated option after an answer that names it and does not block, under that option's payload hash |
| PassSafety.OnlyUnblockedPlansLeave | pipeline/run.py:82-212 | with one dry-run answer per option, everything submitted or dispatched is the compiled plan of an option that was not blocked, after its own modification and under its own payload hash, and no blocked option is scored |
| PassSafety.OneOptionIsPrepared | pipeline/run.py:42-139 | a concrete world with one allowed option gets as far as its verdict, for every role, goal and version |
| PassSafety.BlockIsDispatchedSomewhere | pipeline/run.py:185-212 | in that world, with the peers of `BlockCanBeDispatched`, a pass dispatches on a block and reports that it executes |
| PassSafety.DecisionCounts | pipeline/run.py:101-148 | for any dry-run answers: blocked is generated minus candidates; generated is blocked plus evaluated exactly when the candidates' ids are distinct or none must be simulated; with distinct ids or some simulated candidate the predicted score is the greatest composite |
| PassSafety.DecisionAddsUp | pipeline/run.py:101-148 | with one dry-run answer per option, generated options are blocked plus evaluated ones, the blocked are those the peers blocked, and the predicted score is the greatest composite |
| PassSafety.DecisionIsBounded | pipeline/run.py:93-109 | for convex weights and any dry-run answers every record of the decision is consistent and the confidence lies in the unit interval |
| GoalDriver.Driver.RunGoalStep | goal/driver.py:44-70 | one step ends as `EndOf` says and reports an escalated pass; a report that raises fails the step |
| GoalDriver.Driver.TakeTurn | goal/driver.py:73-111 | one turn of the loop has the counters and attempted updates of `Step` and `UpdatesOf`, each update with its outcome |
| GoalDriver.Driver.Loop | goal/driver.py:73-111 | any finite stretch of the loop has the counters and updates of its history |
| GoalDriver.CounterClosedForm | goal/driver.py:87-107 | after any history the counter of a goal is the length of its trailing error run modulo the limit, and no entry is zero |
| GoalDriver.ErrorStepUpdate | goal/driver.py:98-109 | an error step attempts BLOCKED exactly when its run of errors is a multiple of the limit, and ACTIVE otherwise |
| GoalDriver.BlockedExactly | goal/driver.py:65-111 | only an executing pass goes unreported; BLOCKED is attempted exactly after an escalation, a clarification or a full run of errors, and accepted exactly when that update did not raise |
| GoalDriver.UpdatesExactly | goal/driver.py:65-111 | everything a turn sends, in order: the report of an escalated pass, then BLOCKED after a clarification, or BLOCKED on a full run and ACTIVE otherwise after an error step |
| GoalDriver.ActiveExactly | goal/driver.py:65-111 | ACTIVE is attempted exactly after an error step short of a full run, and a reported escalation or a clarification leaves the goal BLOCKED |
| GoalDriver.InterleavingIsIrrelevant | goal/driver.py:73-111 | steps of other goals, failed claims and recovery updates that raise change neither a goal's counter nor the statuses attempted for it |
| IntentCache.Interpreter.Interpret | pipeline/intent_interpreter.py:175-246 | one call returns and stores what `Interpreted` says: rule, recall, model, fallback, in this order |
| IntentCache.CacheClosedForm | pipeline/intent_interpreter.py:125-169 | for every pattern of failing reads and writes, an entry exists exactly when some call stored under its key, and is the projection of the intent the latest such call returned |
| IntentCache.RecallAgrees | pipeline/intent_interpreter.py:215-222 | whatever reads and writes failed, a recalled intent agrees, on all that was classified, with the one the latest storing call under its key returned |
| IntentCache.ReturnedIsCurrent | pipeline/intent_interpreter.py:175-246 | whatever its source, a returned intent carries the session, hash and text of the current call, and only clean input gets one |
| IntentCache.AnswersMean | pipeline/intent_interpreter.py:175-246 | the result of every call, field by field: the class and action of the matching rule on the extracted entity, the cached answer, the model's five fields, its questions, or the uncertain analysis when it fails |
| IntentCache.ModelIsAskedExactly | pipeline/intent_interpreter.py:187-246 | for every pattern of failing reads and writes the model is asked exactly on a clean input without a rule whose read fails or under whose key no earlier call stored |
| IntentCache.ModelIsAskedOncePerKey | pipeline/intent_interpreter.py:187-246 | with a reliable cache that means: no earlier call under the key returned an intent |
| IntentCache.ClassificationIsStable | pipeline/intent_interpreter.py:187-246 | with a reliable cache all answers under a key that no rule matches carry the same classification |
| IntentCache.KeyIgnoresCaseAndMargins | pipeline/intent_interpreter.py:39-41 | two inputs share a cache key exactly when they agree up to letter case and outer white space |
| IntentCache.RuleTable | pipeline/intent_interpreter.py:88-107 | the first line of the table that hears the stripped input gives its class and action, and unheard input matches no rule |
| IntentCache.WordDecides | pipeline/intent_interpreter.py:88-107 | every word of the table decides by itself, but for "show" in front of "all" |
| IntentCache.LeadsWithMeaning | pipeline/intent_interpreter.py:88-106 | a word leads a text in any spelling unless a letter, a digit or an underscore follows |
| IntentCache.RuleDependsOnKey | pipeline/intent_interpreter.py:39-107 | on ASCII input the matching rule depends only on the normalised text |
| IntentCache.AsciiRunsAreCoherent | pipeline/intent_interpreter.py:39-107 | so in every run over ASCII inputs, inputs with one key match the same rule or none |
| IntentCache.RuleKeysAreNeverRecalled | pipeline/intent_interpreter.py:187-222 | keys that a rule matches are never read from the cache |
| PromptCache.StableCacheKey | character/prompt_loader.py:57-67 | the pieces fed to the hash are the key text |
| PromptCache.Loader.Stable | character/prompt_loader.py:319-323 | one call returns and stores what `Cached` says |
| PromptCache.KeysEqualExactly | character/prompt_loader.py:57-67 | for all arguments two keys agree exactly when the facts, cut at every unit separator, agree or are one of the two confused pairs, and the flags agree |
| PromptCache.KeyInjective | character/prompt_loader.py:57-67 | for facts without the unit separator two keys agree exactly for equal arguments and for the two confused pairs |
| PromptCache.SeparatorConfuses | character/prompt_loader.py:65 | a separator inside a fact makes one fact look like two |
| PromptCache.KeyExample | character/prompt_loader.py:62-66 | two keys spelled out, with the separators the facts are joined and followed by |
| PromptCache.CacheClosedForm | character/prompt_loader.py:319-323 | after any calls the cache holds, under each key used, the rendering of its first use |
| PromptCache.NoCollisionIsTransparent | character/prompt_loader.py:319-323 | in a run without key collisions every call returns a fresh rendering |
| PromptCache.CollisionIsVisible | character/prompt_loader.py:319-323 | for a run with a collision some renderer makes a call return a stale segment |
| PromptCache.PlainRunsAreTransparent | character/prompt_loader.py:57-323 | every run over facts without separators, other than one empty fact and the single fact `<auto>`, returns fresh renderings |
| ToolMerge.MergeTools | character/capability_builder.py:105-133 | the two phases of nested loops compute `Merge` |
| ToolMerge.ListNames | character/capability_builder.py:57-62 | the inventory's names are the native ones followed by the bridged lists |
| ToolMerge.InventoryNames | character/capability_builder.py:57-62 | the names are the native ones and those of every bridged list, nothing else, in that order |
| ToolMerge.GroupIsByPrefix | character/capability_builder.py:76-80 | no name has two prefixes of the table, so a name belongs to the group of whichever prefix it has |
| ToolMerge.GroupTable | character/capability_builder.py:38-80 | the table of prefixes and groups by name |
| ToolMerge.DedupMeaning | character/capability_builder.py:123-132 | de-duplication keeps, in order, the first entry of every key |
| ToolMerge.GroupsInOrder | character/capability_builder.py:114-132 | the merged dictionary lists the base groups first, in order, and then the other groups in the order of their first discovered name |
| ToolMerge.MergeKeepsBase | character/capability_builder.py:114-132 | there are exactly the groups of the base and of the names; each starts with its de-duplicated base entries in order, followed by discovered names of that group that no base entry mentions |
| ToolMerge.NothingIsDropped | character/capability_builder.py:123-132 | de-duplication drops nothing exactly when the base entries of the group have distinct keys, and then every base entry survives in order |
| ToolMerge.MentionedExactly | character/capability_builder.py:114-132 | for every well-formed base a discovered name is mentioned by its merged group exactly when the base does not mention it, a base entry that stays mentions it, or a discovered name of that group which the base does not mention contains it |
| ToolMerge.InventoryIsShown | character/capability_builder.py:105-133 | so for every native name and every name of a bridged list |
| ToolMerge.MergeIsIdempotentExactly | character/capability_builder.py:105-133 | for every well-formed base merging the result again changes nothing exactly when every discovered name is covered in this sense |
| ToolMerge.MergeCovers | character/capability_builder.py:117-132 | so when base entries of equal key are equal, every discovered name is mentioned by an entry of its own group |
| ToolMerge.MergeIsIdempotent | character/capability_builder.py:105-133 | and merging the result again with the same inventory changes nothing |
| ToolMerge.PlainListsAreFaithful | character/capability_builder.py:123-131 | every list of plain strings, whatever it repeats, meets that condition |
| ToolMerge.RepeatedKeyHidesAName | character/capability_builder.py:123-131 | of two dictionaries with one first key the second can keep a name from being added and is then dropped |
| ModelRouter.BuildRegistry | adapters/model_router.py:65-82 | the override loop stops at the first malformed entry and keeps what it had |
| ModelRouter.RegistryHolds | adapters/model_router.py:40-82 | an id has the last override in front of the first malformed entry, or else its built-in model |
| ModelRouter.ChainIsHeadedByBalanced | adapters/model_router.py:85-113 | for the four intents and every override list the chain is the whole tier list, headed by the balanced choice |
| ModelRouter.ChainTable | adapters/model_router.py:57-113 | the chain of each intent by name; another intent tries the configured model when the catalog knows it, and selects the first model of the catalog when it does not |
| ModelRouter.BudgetPicksExtreme | adapters/model_router.py:98-103 | the cheap and the quality budget return the earliest candidate of least and greatest cost tier |
| OptionGeneration.RuleBasedIsSafe | adapters/model_adapter.py:66-87 | the rule-based list has three reversible options on the requested entity, none of them of a forbidden action |
| OptionGeneration.RuleBasedTable | adapters/model_adapter.py:20-87 | the three plans of each intent by action and operation |
| OptionGeneration.RuleBasedEffects | adapters/model_adapter.py:20-87 | of all rule-based plans only the backup has a side effect |
| OptionGeneration.RuleBasedParams | adapters/model_adapter.py:20-87 | no rule-based plan commits to anything, and what a query reads is the requested entity alone |
| OptionGeneration.TryModels | adapters/model_adapter.py:119-127 | models are asked in order, each at most once, up to the first that delivers |
| OptionGeneration.GenerateWithFallback | adapters/model_adapter.py:105-132 | the result is the first delivery of the chain or else the rule-based list, never empty, and the path is MODEL exactly when some model of the chain delivers |
| OptionGeneration.GenerateOptions | pipeline/option_generator.py:112-173 | with the direct call in front the result is never empty either, and the rules are used exactly when nothing delivers |
| EvalHarness.KeysAreInjective | eval/grader.py:37-62 | different checks never share a dictionary key |
| EvalHarness.GradeOutput | eval/grader.py:25-72 | the successive loops compute the checks, the failures and the score |
| EvalHarness.GradesAreCoherent | eval/grader.py:61-72 | a grade passes exactly when every check of the case succeeds, exactly when it has no failures, exactly when its score is one; the score is a proper fraction, repeated checks included |
| EvalHarness.PassesExactly | eval/grader.py:37-72 | a case passes exactly when the lower-cased text holds every required substring and no forbidden one, every required tool was used and the limit is kept |
| EvalHarness.ScoreIsShare | eval/grader.py:61-71 | the score is the share of the checks that succeed, each check counted once, and one without checks |
| EvalHarness.FailuresExactly | eval/grader.py:37-59 | the failures are the checks that fail |
| EvalHarness.ImpossibleCasesFail | eval/grader.py:37-59 | a case that requires and forbids one substring, misses a required tool or exceeds its length never passes |
| EvalHarness.JudgingStaysCoherent | eval/harness.py:42-51 | the judge's verdict keeps the grade coherent, and the case passes exactly when it passed before and the judge agrees |
| EvalHarness.Run | eval/harness.py:36-61 | the run grades every case; its mean and rate are the averages of scores and passes, the rate never exceeds the mean, both lie in the unit interval, and for a run with cases one is one exactly when the other is |
| EvalHarness.TotalsSplit | eval/harness.py:55-61 | the totals behind mean and rate run over all grades, each counted once |

## Left out

- HTTP, Redis, YAML, file and clock access: every remote call is an arbitrary reply or failure.
- The control plane's own guarantees (leases, verdict rules, injection scan, request classifier): not part of this model.
- Cancellation inside the loops, audit events, metrics and stage timers.
- The estimated completion time of an executing pass and the hold identifier's freshness.
- The payload hash of the submitted spec: it is kept from before policy modification and upper-casing, so no agreement is claimed.
- PassSafety.OnlyUnblockedPlansLeave: needs one dry-run answer per option with distinct ids, because an answer is matched by the id the peer returns; without it `PassSafety.SubmittedPlanStems` and `PassSafety.DecisionCounts` still hold.
- IntentCache.RuleDependsOnKey: restricted to ASCII input, because case folding and word boundaries of other scripts are not modelled.
- IntentCache.ModelIsAskedOncePerKey: assumes a reliable cache without expiry; `IntentCache.ModelIsAskedExactly` is the form for every pattern of failures.
- IntentCache.ClassificationIsStable: assumes a reliable cache, because after a failed read or write the model is asked again and may answer differently.
- Lower-casing and upper-casing in `Text.Lower` and `PlanCompiler.Upper` are those of ASCII letters.
- Parsing of model output into options, intents and verdicts; each is an oracle that returns a well-typed value or fails.
- The entity extraction of the interpreter and the prompt renderer are arbitrary functions.
- PromptCache.PlainRunsAreTransparent: the character files stay unchanged during the run; staleness after an overlay refresh is not modelled.
- ToolMerge.MergeTools: lists are values, so the appending in place to a list shared with the base is not modelled (the code copies the lists first), and neither is the exception on an empty dictionary entry.
- ToolMerge.MergeIsIdempotent: needs base entries with equal keys to be equal; `ToolMerge.MergeIsIdempotentExactly` is the form for every well-formed base.
- Parameters of an action are strings; the guard of the compiler on absent parameters cannot fire on a well-typed spec.
- Binary floating point: composites and fractions are exact, so ties that arise only from representation error are not modelled.
- The fallback from strict to tolerant reading of configuration files, the workflow executor, infrastructure discovery, the proactivity queue, context de-duplication and cold-start seeding add only easy members.
