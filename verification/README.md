# Verified model of the AI bridge

The AI bridge lets a remote "maestro" submit execution plans to a local daemon. A plan is a list of
commands, each carrying an operation symbol in a tag. The gatekeeper calls a plan delegable or not; a
delegable plan runs by itself after a timeout, any other is held until the owner decides, and every
command passes an execution gate before a process is spawned. This project models that machinery in
Dafny 4.11 and proves what it guarantees over whole runs. `dafny verify dfyconfig.toml` checks it.

| File | What it models |
|---|---|
| `EventLoop.dfy` | the table of tracked plans (`PendingPlans`) and its five operations |
| `Daemon.dfy` | the daemon around the table: concurrent launches, completions, clock and history, as a labelled transition system; the class `Loop` refines it and carries its run, so the theorems about runs apply to it |
| `Solo.dfy` | one task id by itself; the daemon is the product of these automata |
| `Authority.dfy`, `Ledger.dfy`, `Answers.dfy`, `Quiescence.dfy`, `Reuse.dfy` | why a plan was launched, how often, what a query answers, when the daemon comes to rest, and what reusing an id can undo |
| `Text.dfy`, `Symbols.dfy`, `SymbolTable.dfy`, `ManualPlan.dfy` | trimming and case, the tag in front of a command, the 14 written tags and what they do to a plan, plans typed in the dashboard |
| `Criteria.dfy`, `CriteriaMeaning.dfy`, `Irreversible.dfy` | the loop that classifies a plan, what its verdict means, and the irreversibility rules in terms of the typed text |
| `Executor.dfy`, `EndToEnd.dfy` | the execution gate, and the whole path of a plan |
| `Waiters.dfy` | agents waiting for a human decision on one-shot channels |
| `AdminConfig.dfy`, `ShippedConfig.dfy`, `Lists.dfy`, `AdminRows.dfy` | validation of the administrator's configuration, the criteria file that is shipped, and the editable rows |
| `PathOrder.dfy`, `AuditLog.dfy`, `AuditReplay.dfy` | the monthly append-only log: file names and their order, writing and reading, and what reading back gives |
| `Roles.dfy` | the role list of the dashboard |
| `Json.dfy`, `Dispatch.dfy`, `Payload.dfy` | the maestro message dispatcher and the identity-field check |

How the model is set up:

- The policy and the timeout are a value (`Gate`), fixed for a run. Everything about the task machine
  holds for every policy; `EndToEnd` puts the real one in.
- An event of `Daemon` is one critical section under the mutex. The timer visits the table in any
  order. An event carries a flag for whether the acknowledgement could be written, because the
  daemon drops a launch when it could not (`src/main.rs:336-342`, `src/main.rs:359-361`) although the table has changed.
- Regular expressions, `shlex`, the allow-list file, process spawn and the JSON text of an audit entry
  are values the statements quantify over. What is assumed of them is named: `ValidConfig` (the
  patterns compile) and `GoodCodec` (an encoded entry is one trimmed line that decodes to itself, section 7 of
  RFC 8259). In `EndToEnd` an execution ends with the outcome that `Executor.ExecutePlan` gives in the world it ran in.

Some things one would expect of the code are false:

- "Held until the owner decides" fails when a delegable plan is submitted under the id and when an earlier execution under
  the id ends late, "a rejection is final" when the id is submitted again or an earlier execution under it ends late, and
  "launched at most once" when the id is submitted again. `Reuse` gives runs on which each of the three fails and proves,
  for every state and event, exactly when each holds.
- Names of audit files stop sorting by time when the year gets a fifth digit. `AuditLog` proves exactly which names sort,
  and `AuditReplay` that a log of different entries reads back as it was written if and only if its file names were in
  order; any two appends whose names are not in order are read the other way round.
- The socket permission check speaks of octal but takes any decimal digits; what it accepts is octal exactly without
  an 8 and a 9.
- `config/criteria.toml:8` calls all patterns regular expressions, but the irreversibility markers are plain substrings, and one with a
  capital letter is never found; `config/criteria.toml:12` says a restart puts edits into effect, but the policy
  (`crates/ai-bridge-gatekeeper-core/src/policy.rs:14`) uses the compiled patterns, which equal the file as shipped.
- A wildcard is noticed as a lowering of security only under a new name; widening an existing entry is not.
- Text made from an envelope and received again is not the payload but the whole envelope.
- The last attempt of the dispatcher to read a typed message (`src/main.rs:431-463`) never decides about an object, for which it was
  meant; it decides exactly about JSON arrays of a tag and its fields, which serde also takes for an internally tagged enum.

Where the repository's documentation and its code differ, the model follows the code.

## Model

| member | source | states |
|---|---|---|
| EventLoop.PendingPlans.Ingest | src/event_loop.rs:126-175 | a delegable submission keeps the entry it finds and only sets its status from the age of that entry; a critical one replaces the entry; no other id changes |
| EventLoop.PendingPlans.CheckTimeouts | src/event_loop.rs:178-193 | whatever the visiting order, exactly the overdue entries become auto-approved and each is returned exactly once with its stored plan |
| EventLoop.PendingPlans.RecordExecution | src/event_loop.rs:196-201 | stores the outcome and the status of its sign; fails exactly for an unknown id and then changes nothing |
| EventLoop.PendingPlans.HandleOwnerDecision | src/event_loop.rs:204-218 | only a held entry moves, to pending with its stored plan returned, or to rejected; unknown ids are an error |
| EventLoop.PendingPlans.Query | src/event_loop.rs:221-229 | id, status and result of a known task, and the not-found error exactly for an unknown one |
| EventLoop.TimerPassesBatch | src/event_loop.rs:178-193 | two timer passes at any instants end where one pass at the later instant ends, launch disjoint ids that together are that pass's launches, and leave nothing overdue |
| Daemon.Loop.Wait | src/main.rs:122-124 | time passes and nothing else changes; the run stays legal |
| Daemon.Loop.OnPlan | src/main.rs:350-411 | handling a submitted plan is the submission step of the transition system, launching the submitted plan only when auto-approved and acknowledged; the run so far stays legal and gives the state |
| Daemon.Loop.OnTick | src/main.rs:122-143 | a timer tick is an enabled timer step: it launches every plan the table returned, and nothing else |
| Daemon.Loop.OnResolved | src/main.rs:325-348 | an owner decision is the decision step, launching the stored plan exactly when it was held, approved and acknowledged |
| Daemon.Loop.OnFinished | src/main.rs:204-212 | a finished execution leaves the executions in flight and is recorded in the table |
| Solo.DaemonIsProduct | src/event_loop.rs:126-229 | on every run, entry, launches and history of every id are those of an automaton that never looks at another id |
| Solo.ErasedIsLegal | src/event_loop.rs:126-229 | a run with everything about other ids erased is again a possible run |
| Solo.NonInterference | src/event_loop.rs:126-229 | the answer to a query, the history and the executions in flight of an id are the same after erasing every other id |
| Solo.IterationOrderIsInvisible | src/event_loop.rs:181-190 | runs that differ for an id only in the order in which the timer visits the table give it the same entry and history |
| Authority.EveryRunIsFaithful | src/event_loop.rs:126-218 | in every reachable state the stored plan, decision and creation time are those of the latest critical submission or else the first one, a held entry is non-delegable and the latest submission, and a result has the sign of its status |
| Authority.EveryLaunchIsAuthorised | src/main.rs:122-143 | every launch of every run is a timer launch of a delegable stored plan at least a timeout old, a just-submitted delegable plan under an entry at least a timeout old, or the most recently submitted, non-delegable plan right after the owner's approval |
| Authority.CriticalPlansNeedTheOwner | src/main.rs:325-348 | no non-delegable plan is ever launched without an owner's approval at that moment |
| Authority.TimerStopsAtCritical | src/event_loop.rs:157-170 | after one non-delegable submission the timer never launches that id again, whatever is submitted later |
| Authority.EntriesAreHistory | src/main.rs:206-209 | an id is known exactly when it was submitted; an id in flight is always known, so recording its result cannot fail |
| Ledger.TheBooksBalance | src/event_loop.rs:157-218 | per id and on every run: at most one timer launch; launches plus an armed entry at most the submissions; approvals, rejections and a held entry at most the critical submissions; started launches are the finished ones plus those in flight |
| Answers.AnswersAreHistory | src/event_loop.rs:126-229 | on every run a query answers, about every id, the status and result that the history of the id tells: held after a critical submission, pending or approved by the age of the window after a delegable one, approved after a timer launch, pending after an approval, rejected after a rejection, and whatever the last completion reported |
| Answers.CompletionIsReported | src/event_loop.rs:196-201 | the end of an execution always ends its task: executed exactly if the outcome is a success, with that outcome stored and answered; plan, decision and creation time of the task and all other tasks stay |
| Answers.HistoryIsOrdered | src/main.rs:122-143 | the records of a run are in the order of the clock, which is the time that has passed |
| Quiescence.StepShrinks | src/event_loop.rs:178-218 | without a submission, every effective step lowers 2 x (waiting or held entries) + executions in flight, and every launch uses up a waiting or held entry |
| Quiescence.RunsDry | src/main.rs:122-143 | once nothing is submitted any more, the remaining effective steps and launches are bounded by the state reached |
| Quiescence.NothingIsStuck | src/main.rs:131-141 | from every reachable state that is not at rest an effective step is possible, at once or after one timeout |
| Quiescence.CanComeToRest | src/main.rs:122-143 | every run can be continued without submissions until nothing waits, is held or runs |
| Reuse.HeldPersistsExactlyWhen | src/event_loop.rs:130-201 | a held task stays held through an event if and only if the event is no decision on it, no delegable resubmission of its id and no completion of it; the same plan stays held if and only if, besides, no other critical plan is submitted |
| Reuse.RejectionPersistsExactlyWhen | src/event_loop.rs:126-201 | a rejected task stays rejected if and only if the event neither submits under its id nor completes an execution of it |
| Reuse.LaunchesExactlyWhen | src/main.rs:122-143 | an event launches an id once or not at all, and exactly under a condition on the state before it: an overdue entry at a tick, a delegable submission under an entry past its window, or an approval of a held entry |
| Reuse.SettledIsFinalWithoutResubmission | src/event_loop.rs:196-218 | an id with nothing armed and nothing in flight keeps its answer and is never launched again unless it is submitted again |
| Reuse.HeldIsNotUntilDecided | src/event_loop.rs:130-155 | counterexample: a delegable resubmission takes a held plan away from the owner, whose approval then launches nothing |
| Reuse.HeldIsLostToALateCompletion | src/event_loop.rs:196-201 | counterexample: the end of an earlier execution takes a critical plan held under the same id away from the owner, whose approval then launches nothing |
| Reuse.RejectionIsNotFinal | src/event_loop.rs:157-170 | counterexample: a rejected plan submitted again is held again |
| Reuse.LaunchedTwice | src/main.rs:367-369 | counterexample: one delegable plan resubmitted after its timeout is launched a second time |
| Symbols.FromLiteral | crates/ai-bridge-protocol/src/lib.rs:118-120 | a name is recognised exactly when some symbol has it, and the symbol found has that name |
| Symbols.TagRoundTrip | crates/ai-bridge-protocol/src/lib.rs:122-148 | for all 14 symbols and all texts, even ones that hold tags, reading back a printed tag gives the symbol and the trimmed text |
| Symbols.ExtractMeaning | crates/ai-bridge-protocol/src/lib.rs:131-148 | the parser finds a tag of the grammar or, when there is none, returns the command unchanged as unclassified |
| Symbols.TaggedIsExtracted | crates/ai-bridge-protocol/src/lib.rs:131-148 | whatever the tag grammar reads in a command is what the parser returns, so the grammar is unambiguous |
| Symbols.ExtractIgnoresSurroundings | crates/ai-bridge-gatekeeper-core/src/safety_guard.rs:115 | the safety lock, which parses the trimmed command, finds the symbol that the classifier and the executor find |
| Symbols.ClassifiedIsTagged | crates/ai-bridge-gatekeeper-core/src/criteria.rs:245-246 | a symbol other than the fallback implies the prefix test that the classifier adds |
| SymbolTable.NamesTellClassification | crates/ai-bridge-protocol/src/lib.rs:31-97 | a symbol is critical exactly when its name begins with `CRIT.`, delegable exactly when it begins with `OPS.` |
| SymbolTable.ProtectedNamesAreCritical | crates/ai-bridge-gatekeeper-core/src/admin_config.rs:117-125 | the names the administrator's configuration protects are exactly those of the critical symbols |
| SymbolTable.WrittenTagsAreRead | crates/ai-bridge-protocol/src/lib.rs:31-148 | a command beginning with one of the 14 tags, written out, is read as that symbol and the trimmed rest |
| SymbolTable.TagsArePrinted | crates/ai-bridge-protocol/src/lib.rs:122-129 | what is printed is the written tag, followed by one blank and the trimmed text if there is any |
| SymbolTable.CriticalTagsNeedTheOwner | crates/ai-bridge-gatekeeper-core/src/criteria.rs:245-263 | a plan with a command whose text begins with `[[AB:CRIT.` is non-delegable whatever follows, and the armed lock blocks the command |
| SymbolTable.WrittenTagDecides | crates/ai-bridge-gatekeeper-core/src/criteria.rs:234-277 | a command behind a written tag is clean exactly when the name begins with `OPS.` and the text hits no criterion |
| Text.WhiteSpaceIs | crates/ai-bridge-protocol/src/lib.rs:122-132 | trimming removes exactly the 25 code points with Unicode's White_Space property |
| Text.LowercaseForgetsCase | crates/ai-bridge-gatekeeper-core/src/criteria.rs:156 | two texts have the same lower case exactly when they are equal up to ASCII case |
| Text.LowercaseContains | crates/ai-bridge-gatekeeper-core/src/criteria.rs:156-179 | what the lower-case text contains is what the text mentions up to ASCII case |
| Text.CapitalsNeverOccur | crates/ai-bridge-gatekeeper-core/src/criteria.rs:156-166 | a pattern with a capital letter is never found |
| Text.TrimKeepsMentions | crates/ai-bridge-gatekeeper-core/src/criteria.rs:156 | trimming removes no mention of a trimmed pattern |
| ManualPlan.ManualPlanReadsBack | crates/ai-bridge-ui/src/app.rs:176-198 | a manual plan exists unless every row is blank, and extracting its commands gives the symbols and trimmed texts of the non-blank rows in order |
| ManualPlan.ManualPlanDecision | crates/ai-bridge-ui/src/app.rs:200-229 | the policy decides a manual plan by what its rows say, with no privileged path |
| Criteria.EvaluateTextCommand | crates/ai-bridge-gatekeeper-core/src/criteria.rs:155-231 | reports the criteria the trimmed, lower-cased text hits in the order tried, is non-delegable exactly when there is one, and panics exactly when a scan reaches a broken pattern |
| Criteria.HitsMeaning | crates/ai-bridge-gatekeeper-core/src/criteria.rs:155-231 | the criteria reported for a text are exactly those whose scan matches, each once, in the fixed order |
| Irreversible.ScanSeesText | crates/ai-bridge-gatekeeper-core/src/criteria.rs:156 | the scan sees exactly the trimmed text up to ASCII case |
| Irreversible.IrreversibleExactlyWhen | crates/ai-bridge-gatekeeper-core/src/criteria.rs:163-182 | irreversibility is reported exactly for a configured marker, for `rm -rf` with a backup or a system path, and for `dd` from /dev/zero to a disk, the rules being judged by what the typed text mentions |
| Irreversible.IrreversiblePlansAreHeld | crates/ai-bridge-gatekeeper-core/src/criteria.rs:163-277 | a plan with such a command is non-delegable whatever its tags |
| Irreversible.CapitalMarkersAreDead | crates/ai-bridge-gatekeeper-core/src/criteria.rs:163-166 | a marker typed with a capital letter protects nothing |
| Irreversible.ShippedMarkersArePlain | crates/ai-bridge-gatekeeper-core/src/criteria.rs:21-42 | every shipped marker is found wherever a text mentions it |
| Criteria.EvaluateCommand | crates/ai-bridge-gatekeeper-core/src/criteria.rs:238-269 | one turn of the loop: clean or not, the criteria it may report, and when it panics even though the tag is bad |
| Criteria.EvaluateCriteriaWithConfig | crates/ai-bridge-gatekeeper-core/src/criteria.rs:234-277 | delegable exactly when every command has a recognised delegable tag and a clean text; reports the merged criteria; panics exactly when some command's text does |
| Criteria.CleanIs | crates/ai-bridge-gatekeeper-core/src/criteria.rs:245-259 | the separate tests for a tag prefix and for the fallback symbol amount to the symbol being delegable and the text clean |
| Criteria.DecidePolicyWithConfig | crates/ai-bridge-gatekeeper-core/src/policy.rs:19-24 | the policy is the declarative verdict on the plan's commands |
| CriteriaMeaning.TriggeredMeaning | crates/ai-bridge-gatekeeper-core/src/criteria.rs:238-269 | a criterion is reported exactly when some command with a recognised tag, critical or not, hits it |
| CriteriaMeaning.TriggeredOrder | crates/ai-bridge-gatekeeper-core/src/criteria.rs:265-269 | each criterion is reported once, in the order of the first commands to hit them, ties in the order of the criteria |
| CriteriaMeaning.TriggeredIsCritical | crates/ai-bridge-gatekeeper-core/src/criteria.rs:261-269 | a plan with a reported criterion is non-delegable |
| CriteriaMeaning.VerdictOfConcat | crates/ai-bridge-gatekeeper-core/src/criteria.rs:234-277 | a concatenation of plans is delegable exactly when both parts are |
| CriteriaMeaning.VerdictOfPermutation | crates/ai-bridge-gatekeeper-core/src/criteria.rs:234-277 | the order of commands does not matter for the verdict |
| CriteriaMeaning.AnyMatchMeaning | crates/ai-bridge-gatekeeper-core/src/criteria.rs:150-203 | a category panics exactly when a broken pattern stands before every match; if all compile it tells whether one matches |
| CriteriaMeaning.ValidConfigNeverPanics | crates/ai-bridge-gatekeeper-core/src/criteria.rs:150-153 | with patterns that compile no text makes evaluation panic |
| CriteriaMeaning.MorePatternsAreStricter | crates/ai-bridge-gatekeeper-core/src/criteria.rs:155-277 | adding patterns never turns a non-delegable plan into a delegable one, without assuming that unreached patterns compile |
| Executor.RefusedExactlyWhen | crates/ai-bridge-gatekeeper-daemon/src/executor.rs:29-91 | which refusal a command meets and exactly when, in the order quotes, emptiness, lock, allow-list; an override is never asked for |
| Executor.SafetyLockMeaning | crates/ai-bridge-gatekeeper-core/src/safety_guard.rs:109-124 | an armed lock allows exactly blank commands and delegable tags and blocks the rest, a disarmed one allows everything, neither asks for an override |
| Executor.ClearMeaning | crates/ai-bridge-gatekeeper-daemon/src/executor.rs:58-91 | a command reaches the spawn with these tokens if and only if it is blank or delegably tagged, tokenises to them, and its program is allow-listed |
| Executor.SpawnsWhatWasCleared | crates/ai-bridge-gatekeeper-daemon/src/executor.rs:58-92 | a process is started exactly for a command let through, with exactly the tokens of its text |
| Executor.ExecutePlan | src/main.rs:78-107 | the loop runs every command even after a failure and computes PlanOutcome |
| Executor.OutcomeOfOne | src/main.rs:79-106 | no command: no output, exit code 0, success; one command: its outputs, its code or 1 when killed by a signal, success for code 0; a refused one: no output, its message, 1, failure |
| Executor.OutcomeOfConcat | src/main.rs:84-106 | running p and then q reports the outputs of p followed by those of q in both streams, the exit code of what ran last, and success exactly if both succeed |
| Executor.OutputsKeepOrder | src/main.rs:91-97 | of two commands the output of the earlier stands before that of the later, directly behind the outputs before it |
| Executor.SuccessWasGated | src/main.rs:78-107 | in a successful plan every non-blank command had a delegable tag and every command an allow-listed first token |
| Executor.DelegableIsNeverBlocked | crates/ai-bridge-gatekeeper-daemon/src/executor.rs:62-76 | a plan the policy calls delegable is never refused by the safety lock |
| Executor.CriticalTagsNeverSucceed | crates/ai-bridge-gatekeeper-daemon/src/executor.rs:62-76 | a non-blank command without a delegable tag never runs, so its plan cannot succeed even with the owner's approval |
| Executor.ScannedTextIsExecutedText | crates/ai-bridge-gatekeeper-daemon/src/executor.rs:30-36 | the text tokenised is the text scanned, if and only if the command is not explicitly tagged as unclassified; then it is the whole command |
| EndToEnd.UnattendedLaunchesAreClean | src/main.rs:122-143 | with the real policy, everything launched without the owner consists of clean commands that the safety lock lets pass |
| EndToEnd.IrreversibleNeverRunsUnattended | crates/ai-bridge-gatekeeper-core/src/criteria.rs:163-182 | whatever the regular expressions match, no command launched without the owner removes a protected path, wipes a disk, mentions a plain marker or begins with `[[AB:CRIT.` |
| EndToEnd.MarkersNeverRunUnattended | crates/ai-bridge-gatekeeper-core/src/criteria.rs:21-42 | with the shipped patterns, no text that mentions a shipped marker in any case is launched without the owner |
| EndToEnd.EndedMeansRan | src/main.rs:131-141 | the stored result of an ended task is what one execution of a plan launched under its id, with the authority required, gave; executed exactly if all its commands succeeded |
| EndToEnd.ExecutedMeansGated | src/event_loop.rs:196-201 | behind a task reported as executed is a plan launched with the authority required, whose every command was blank or delegably tagged and had an allow-listed first token |
| Waiters.ActiveTasks.RegisterTask | crates/ai-bridge-gatekeeper-daemon/src/gatekeeper.rs:63-72 | registering adds a waiter with the id and the delegability given, makes its channel current for the id and drops the sender of the previous registration |
| Waiters.RegistrationFixes | crates/ai-bridge-gatekeeper-daemon/src/gatekeeper.rs:63-72 | for the rest of every run a waiter has the id and the delegability that its registration said |
| Waiters.EveryWaiterWasRegistered | crates/ai-bridge-gatekeeper-daemon/src/gatekeeper.rs:63-72 | every waiter comes from a registration |
| Waiters.WaitedOutMeaning | crates/ai-bridge-gatekeeper-core/src/timers.rs:55 | a timeout counts from the event that began the wait |
| Waiters.ActiveTasks.Resolve | crates/ai-bridge-gatekeeper-daemon/src/gatekeeper.rs:90-94 | sends the decision to the current registration and removes it; None exactly for an unknown id |
| Waiters.ActiveTasks.HandleInbound | crates/ai-bridge-gatekeeper-daemon/src/gatekeeper.rs:127-135 | a malformed line changes nothing; a decision is reported as resolved even if nobody waited |
| Waiters.RunConsistent | crates/ai-bridge-gatekeeper-daemon/src/gatekeeper.rs:51-94 | a channel is open exactly while its registration is the current one for its id |
| Waiters.ChannelsHoldExactly | crates/ai-bridge-gatekeeper-daemon/src/gatekeeper.rs:63-94 | a channel holds a decision exactly if it arrived while the registration was current, and has lost its sender exactly if the id was registered again meanwhile |
| Waiters.AnswersAreExplained | crates/ai-bridge-gatekeeper-core/src/timers.rs:48-69 | every answer is the human's decision on the current registration, a denial because of a re-registration, or, only for a task registered as delegable, an approval after a full timeout of silence since the wait began |
| Waiters.AnswerIsReadyExactlyWhen | crates/ai-bridge-gatekeeper-core/src/timers.rs:48-69 | a waiting task can be answered exactly when one of these three has happened |
| Waiters.AnswersAreFinal | crates/ai-bridge-gatekeeper-core/src/timers.rs:48-69 | a waiter gets at most one answer, however the run goes on |
| Waiters.RegistrationsAreConserved | crates/ai-bridge-gatekeeper-daemon/src/gatekeeper.rs:63-94 | registrations are those resolved, those superseded and those still in the registry |
| AdminConfig.ValidateAllowlist | crates/ai-bridge-gatekeeper-core/src/admin_config.rs:137-152 | accepts exactly lists without wildcard paths and duplicate names; otherwise blames the first offending entry |
| AdminConfig.ValidateSymbolsAndPolicy | crates/ai-bridge-gatekeeper-core/src/admin_config.rs:154-172 | accepts exactly policies that leave protected symbols critical and without auto-approval; otherwise blames the first offender |
| AdminConfig.ValidateCriteria | crates/ai-bridge-gatekeeper-core/src/admin_config.rs:174-186 | accepts exactly when every pattern compiles; otherwise names the first that does not |
| AdminConfig.ValidateSockets | crates/ai-bridge-gatekeeper-core/src/admin_config.rs:188-208 | accepts exactly unique names with permissions of a zero and three decimal digits; otherwise blames the first offender |
| AdminConfig.Validate | crates/ai-bridge-gatekeeper-core/src/admin_config.rs:129-135 | accepts exactly the valid configurations; an error comes from the first bad part |
| AdminConfig.ValidNamesAreKeys | crates/ai-bridge-gatekeeper-core/src/admin_config.rs:137-208 | allow-lists and sockets are accepted exactly with as many names as entries, without wildcards and with valid permissions |
| AdminConfig.AcceptedPermissions | crates/ai-bridge-gatekeeper-core/src/admin_config.rs:191-195 | the permission check accepts exactly a zero and three decimal digits |
| AdminConfig.AcceptedIsOctalExactlyWhen | crates/ai-bridge-gatekeeper-core/src/admin_config.rs:191-195 | a permission string is octal if and only if the check accepts it and it has no 8 and no 9 |
| AdminConfig.PermissionsNeedNotBeOctal | crates/ai-bridge-gatekeeper-core/src/admin_config.rs:188-208 | counterexample: validation accepts a socket with permissions 0999, which are not octal |
| AdminConfig.ToCriteriaConfig | crates/ai-bridge-gatekeeper-core/src/admin_config.rs:332-352 | the loop over the sets yields, category by category, the patterns chosen by LastPatterns |
| AdminConfig.CategoriesGoByTheirNames | crates/ai-bridge-gatekeeper-core/src/admin_config.rs:337-348 | a set configures a category exactly under one of its names, aliases included |
| AdminConfig.LastPatternsMeaning | crates/ai-bridge-gatekeeper-core/src/admin_config.rs:336-350 | a category has the patterns of the last set named for it under any alias |
| AdminConfig.MissingCategoryKeepsDefault | crates/ai-bridge-gatekeeper-core/src/admin_config.rs:332-335 | a category without a set keeps the default |
| AdminConfig.ValidatedEvaluationIsTotal | crates/ai-bridge-gatekeeper-core/src/admin_config.rs:128-186 | evaluating any plan with the criteria of a validated configuration never panics |
| AdminConfig.EditedConfig.SeedDefaultCriteria | crates/ai-bridge-gatekeeper-core/src/admin_config.rs:355-383 | seeds the six default sets if there is no set, and otherwise changes nothing |
| AdminConfig.SeedingGivesDefaults | crates/ai-bridge-gatekeeper-core/src/admin_config.rs:355-383 | converting a seeded configuration gives the default patterns |
| ShippedConfig.ShippedFileIsDefault | config/criteria.toml:14-103 | converting the shipped criteria file gives, category by category, exactly the patterns that are compiled in |
| AdminConfig.IsSecurityLoweringChange | crates/ai-bridge-gatekeeper-core/src/admin_config.rs:217-247 | true exactly for a new wildcard, a critical entry made delegable, auto-approval switched on for a protected symbol, or fewer sockets |
| AdminConfig.LoweringMeaning | crates/ai-bridge-gatekeeper-core/src/admin_config.rs:217-247 | a change lowers security exactly by a wildcard under a new name, by loosening an entry against the first previous one for its symbol, or by having fewer sockets |
| AdminConfig.WidenedEntriesGoUnnoticed | crates/ai-bridge-gatekeeper-core/src/admin_config.rs:218-223 | turning an existing allow-list entry into a wildcard is not reported as lowering security |
| AdminConfig.ValidatedChangesLowerLittle | crates/ai-bridge-gatekeeper-core/src/admin_config.rs:128-247 | a validated configuration lowers security if and only if it has fewer sockets or makes an unprotected symbol delegable |
| Lists.ItemsOfJoin | crates/ai-bridge-ui/src/admin_panel.rs:47-60 | splitting, trimming and filtering undoes joining for clean items |
| Lists.SplitJoins | crates/ai-bridge-ui/src/admin_panel.rs:56-58 | the pieces of a text, joined again, are the text |
| Lists.LinesAreSplit | crates/ai-bridge-ui/src/admin_panel.rs:96-103 | for trimmed non-empty items, cutting a text into lines is splitting it at newlines, `\r\n` included |
| AdminRows.BinaryRowsNormaliseOnce | crates/ai-bridge-ui/src/admin_panel.rs:46-73 | saving, loading and saving an allow-list row gives what the first save gave |
| AdminRows.CriteriaRowsNormaliseOnce | crates/ai-bridge-ui/src/admin_panel.rs:89-108 | the same for a criteria row |
| AdminRows.RowsKeepTheirFields | crates/ai-bridge-ui/src/admin_panel.rs:46-73 | saving and loading keep name, path and permission, and the arguments as trimmed non-blank pieces |
| AdminRows.BinaryEntriesSurviveExactlyWhen | crates/ai-bridge-ui/src/admin_panel.rs:46-73 | an entry survives loading and saving if and only if its arguments are trimmed, non-empty and comma-free and its path is not the empty string |
| AdminRows.PatternSetsSurviveExactlyWhen | crates/ai-bridge-ui/src/admin_panel.rs:89-108 | a pattern set survives if and only if its patterns are trimmed, non-empty and newline-free |
| AuditLog.Log.Append | crates/ai-bridge-gatekeeper-core/src/audit.rs:39-51 | adds one terminated line to the file of the current month and touches no other file |
| AuditLog.Log.ReadFile | crates/ai-bridge-gatekeeper-core/src/audit.rs:78-102 | the entries of the lines that decode, in order; nothing for a missing file |
| AuditLog.Log.LogFiles | crates/ai-bridge-gatekeeper-core/src/audit.rs:65-69 | exactly the `.jsonl` files of the directory, each once, whatever the order of the walk |
| AuditLog.LogFilesHaveTheExtension | crates/ai-bridge-gatekeeper-core/src/audit.rs:68 | log files are exactly those with a name before `.jsonl` |
| PathOrder.Sort | crates/ai-bridge-gatekeeper-core/src/audit.rs:70 | the same names in ascending order |
| PathOrder.SortingIsUnique | crates/ai-bridge-gatekeeper-core/src/audit.rs:70 | there is one ascending list of a set of names, so the result of the sort does not depend on how it sorts |
| AuditLog.Log.ReadAll | crates/ai-bridge-gatekeeper-core/src/audit.rs:60-75 | the entries of all log files in path order, in which every directory can be listed in exactly one way |
| AuditReplay.Replay | crates/ai-bridge-gatekeeper-core/src/audit.rs:39-107 | for every sequence of appends whose file names are in order, reading everything back gives exactly the appended entries in order |
| AuditReplay.ReplayExactlyWhen | crates/ai-bridge-gatekeeper-core/src/audit.rs:39-107 | a log of different entries reads back as it was written if and only if of any two appends the earlier one's file name is the same or sorts first |
| AuditReplay.CalendarReplay | crates/ai-bridge-gatekeeper-core/src/audit.rs:39-107 | the same condition read off the months of the appends, which may even go back where the names sort backwards |
| AuditReplay.FourDigitReplay | crates/ai-bridge-gatekeeper-core/src/audit.rs:39-107 | for years 0 to 9999 a clock that never goes back is all that replay needs and, for different entries, also necessary |
| AuditLog.FileNamesSortExactlyWhen | crates/ai-bridge-gatekeeper-core/src/audit.rs:104-107 | for any two months the zero-padded names sort by time if and only if the earlier year does not exceed the leading digits of the later one |
| AuditReplay.UnsortedNamesReadBackwards | crates/ai-bridge-gatekeeper-core/src/audit.rs:60-107 | in any log, of two appends whose file names are not in order the later one is read first |
| AuditLog.FifthDigitBreaksOrder | crates/ai-bridge-gatekeeper-core/src/audit.rs:104-107 | counterexample: the file of January 10000 sorts before that of December 9999 |
| AuditReplay.MalformedLinesAreSkipped | crates/ai-bridge-gatekeeper-core/src/audit.rs:84-100 | a malformed or blank line between complete lines changes no other entry |
| Roles.RoleAssignmentSet.Assign | crates/ai-bridge-ui/src/app.rs:756-764 | the entries afterwards are those of other apps and, unless the role is none, the new one, which is last |
| Roles.SetRoleMeaning | crates/ai-bridge-ui/src/app.rs:756-764 | assigning another role than Maestro keeps the list well formed and changes the lookup of the named app only |
| Roles.RoleAssignmentSet.PromoteMaestro | crates/ai-bridge-ui/src/app.rs:770-788 | demotes every other Maestro in place, then promotes the app's first entry or adds one |
| Roles.RoleAssignmentSet.AssignForApp | crates/ai-bridge-ui/src/app.rs:304-312 | from a well-formed list, the list stays well formed and every lookup is the expected one |
| Roles.SetRoleForAppMeaning | crates/ai-bridge-ui/src/app.rs:236-312 | app ids stay unique, at most one Maestro remains, and only the lookups of the named app and of the demoted Maestro change |
| Roles.PromotionTakesEffect | crates/ai-bridge-ui/src/app.rs:766-788 | after a promotion the current Maestro is the named app |
| Roles.CurrentMaestroExactlyWhen | crates/ai-bridge-ui/src/app.rs:766-768 | the current Maestro is exactly the app whose role is Maestro |
| Roles.LookupIsFirst | crates/ai-bridge-ui/src/app.rs:236-243 | on any list the role of an app is that of its first entry, or none |
| Roles.RolesRefineMap | crates/ai-bridge-ui/src/app.rs:304-312 | over any session the list behaves as a map from apps to roles with at most one Maestro |
| Payload.CheckIsSound | crates/ai-bridge-channels/src/lib.rs:152-166 | a returned name is an identity field that an object at some path really carries |
| Payload.CheckIsComplete | crates/ai-bridge-channels/src/lib.rs:152-166 | an identity field at any depth is noticed |
| Payload.AcceptedExactlyWhen | crates/ai-bridge-channels/src/lib.rs:145-150 | a payload is accepted if and only if no object reachable in it has key `sender` or `auth_token` |
| Payload.EnvelopeIsTransparent | crates/ai-bridge-channels/src/lib.rs:120-143 | wrapping a payload in its envelope changes neither acceptance nor the field reported |
| Payload.ReportIsFirst | crates/ai-bridge-channels/src/lib.rs:152-166 | an object reports its own `sender` before its `auth_token`, and these before its first offending child |
| Payload.EnvelopesNest | crates/ai-bridge-channels/src/lib.rs:120-143 | an envelope read as one gives its payload back; received as text it becomes the payload, so that each hop adds an envelope |
| Dispatch.ResolvesExactlyWhen | src/main.rs:325-348 | a JSON value is taken as an owner decision if and only if it is an object with a string `task_id` and a boolean `approved`, with those values |
| Dispatch.SubmitsExactlyWhen | src/main.rs:350-463 | a JSON value submits a plan if and only if it is an object that holds the plan's fields, has no `approved` and is not typed as a query, or the array of the plan's tag and fields |
| Dispatch.QueriesExactlyWhen | src/main.rs:378-463 | a JSON value is a query if and only if it is an object with a string id and no `approved` that is typed as a query or holds nothing else, or the array of the query's tag and id |
| Dispatch.ControlsExactlyWhen | src/main.rs:465-508 | the lock is armed or disarmed, an override logged and a message shown exactly by an object of that type without `approved` and `commands`, missing texts having their fallbacks |
| Dispatch.FallbackDecidesExactlyArrays | src/main.rs:431-463 | the second attempt at a typed message decides if and only if the value is the array of a plan's or a query's tag and fields; about an object it never decides |
| Dispatch.OutboundEventsArrive | crates/ai-bridge-ui/src/app.rs:74-87 | every event of the dashboard, with any strings, reaches the intended action with the same fields if and only if a control event carries its own type string |
| Dispatch.MaestroMessagesArrive | crates/ai-bridge-protocol/src/lib.rs:184-194 | typed plans and queries reach the intended action with the same fields |
| Dispatch.BareQueriesArrive | src/main.rs:413-429 | a bare query reaches the query action |

## Left out

- EndToEnd.UnattendedLaunchesAreClean: the real policy is a total function here, so a daemon that panics on a broken default pattern is not a run.
- AuditLog.Log.ReadAll: files that cannot be read or are not UTF-8 are not modelled; the library's sort is an insertion sort here.
- Symbols.FromLiteral: picks the symbol of that name instead of scanning the list in order; names are proved unique.
- Executor.ExecutePlan: a task's behaviour is indexed by its position in the plan; waiting for the process and lossy UTF-8 conversion are not modelled.
- Waiters.AnswersAreExplained: the timeout is fixed for a run, one poll of a waiter is one step, and dropping the whole registry is not a step.
- Dispatch.FallbackDecidesExactlyArrays: how serde reads an array as an internally tagged enum (the tag, then exactly the variant's fields) is part of the model, as `ParseMaestroArray`; serde itself is not.
- Dispatch.ResolvesExactlyWhen: objects with duplicate keys, on which the JSON library keeps the last one or fails, are not modelled.
- `gatekeeper_timeout` read from the environment at every use: one fixed value per run.
- Sockets, peer credentials, token files, handshake and framing: operating-system I/O.
- Tokio scheduling, signals, shutdown and mutex poisoning: replaced by interleaved steps.
- The regex engine, `shlex`, serde and TOML: values with the named assumptions above.
- `critical_held`, `ready_for_execution` and the branch registry of `src/event_loop.rs`: accessors the task machine does not depend on.
- `SafetyGuard` arming, disarming, overrides and their audit records: the executor uses a fresh, armed guard for every command.
- `src/root_branch.rs`, `src/safety_guard.rs`, self-heal roles, the portal allow-list and the sub-chat counter: unused by the daemon or one-branch facts.
- Symbol, branch and audit fields of the admin configuration, and its loading, saving and backup: no check reads them.
- Task display data in the waiter registry, and the messages and files the dashboard writes: rendering.
