# Verified model of Job Agent

Job Agent keeps a recruiting account in a desired state, tailors a resume for one
application, submits it, and restores the account. It owns neither the account nor
the platform, and may stop between any two effects. This project models that logic
in Dafny and proves what holds over every run.

- **Desired state** (`JsonPointer`, `JsonTree`, `Leaves`, `ProfileState`,
  `RetrySafety`, `Overrides`): trees, RFC 6901 pointers, the recursive diff, the plan,
  and the three-way classification every retry makes. The recursive diff is proved
  equal to a plan read path by path, and retries are shown exact: they conflict
  exactly when a third value appears and otherwise return exactly what is missing.
- **Temporary resume** (`Tailoring`, `Remote`, `TailoringRuns`, `TailoringSafety`,
  `TailoringCoordinator`): the stored saga record, a step system over stored records,
  stored proposals and the account, what its runs make of the account while third parties
  edit it too, and the coordinator as a class. Each effect of the coordinator is one
  step, so what holds of runs holds wherever it stops.
- **Submission** (`Application`, `SubmitRuns`, `SubmitCalls`, `SubmitHandler`, `Lanes`):
  the application record, the budget ledger, and the handler with all its branches as a
  class whose history is a run, driving the coordinator of the temporary resume. Others
  load applications and save them again, however late, between any two effects; workers
  of one profile are serialised by its lane, which is modelled on its own.
- **Algorithmic cores** (`Employers`, `Questionnaires`, `AnswerResolution`,
  `Schedules`, `Skills`, `ApplicationPages`, `Processors`, `Conversations`).
- **Shared** (`Basics.dfy`: options, string order, sorting, uniqueness; `Text`:
  whitespace as Go's `unicode.IsSpace` defines it).

How to read the step systems: a state holds what is durable (plus what the one
process remembers, which a `Crash` or `Forget` step clears); `Next` says what one
effect may do; a run is a sequence of states linked by `Next`. The classes record
their history in ghost fields, and `Valid` says that the history is a run. Results of
repositories, platform, browser, clock and id generator are arbitrary within their
contracts, and every such call may fail, before or after it took effect. The classes
also keep, in a ghost field, what they were told by such calls, and count as `trouble` what
went wrong; besides what holds always, their contracts say exactly how an operation ends
if nothing did.

Where a promise does not hold of the code, the code was kept, the failure is shown and
its exact condition is proved:

- Saves of applications compare the status only: `SubmitCalls.StaleResetForgetsAnAttempt`;
  exactly when submissions stay covered by attempts: `SubmitCalls.CoveredExactly`,
  `SubmitCalls.SavedCopyExactly`.
- A failed browser submission is not reconciled:
  `SubmitCalls.BrowserFailureIsNotReconciled`; exactly when a submission can be repeated
  without a failure being sent back: `SubmitCalls.ResubmissionExactly`.
- Writers compare before they write, not while: `TailoringRuns.EditBetweenIsOverwritten`;
  exactly when a foreign value is overwritten: `TailoringRuns.ClobberingExactly`.
- Fingerprints join texts by a character texts may contain:
  `AnswerResolution.SeparatorsCollide`; exactly when they decide:
  `Questionnaires.FingerprintDecides`, `AnswerResolution.ReuseExactly`.
- Resuming a job sets its next occurrence to the present: `Schedules.ResumeGoesBack`;
  exactly when a schedule only moves forward: `Schedules.OccurrencesMoveForwardExactly`.
- A look for active tasks and the task made on its strength are two effects, and a failed
  task may be restarted: `Schedules.TwoReconcilersCollide`, `Schedules.RestartCollides`;
  exactly when a job has one active task at a time: `Schedules.OneActiveExactly`,
  and one reconciler without restarts always keeps it: `Schedules.OneReconcilerKeepsIt`.

`Conversations.SentUnderSameIdIsLost` is a limit of `Observe` alone: the store in front of
it never lets such a message through.

In five places the code checks what can no longer fail: the ownership comparison that ends
`WithOverrides`, the validation that ends `NewProfileStateProposal`, the last limit
comparison of `planFromDecisions`, the validation of skill decisions that ends both resume
processors, and, behind the message store, the comparison of `Observe` with the last id.

Where code and documentation differ, the code is followed: `scheduler.PauseStore` says
that a paused schedule stays due. `ReconcileDue` advances it; resuming the job makes it
due again, through `TriggerScheduledJob`.

## Model

| member | source | states |
|---|---|---|
| Text.BlankExactly | core/profile_state.go:69-71 | trimming leaves nothing exactly of texts made of space alone |
| Text.TrimTwice | core/profile_state.go:50-66 | what was trimmed once is not trimmed further, so a stored tag passes the later check as the given one does |
| Text.WordsOfSpaced | operator/employer.go:244-251 | words put in line with single spaces are read back as they were |
| Text.CollapsedExactly | core/questionnaire.go:184-188 | two texts collapse to one exactly when they are the same words |
| JsonPointer.Unescape | core/profile_state.go:808-829 | the byte loop decodes exactly the segments whose every `~` is followed by `0` or `1`, and fails on all others |
| JsonPointer.UnescapeEscape | core/profile_state.go:808-834 | decoding an encoded segment gives it back, for every segment (RFC 6901 sections 3 and 4) |
| JsonPointer.EscapeUnescape | core/profile_state.go:808-834 | encoding a decodable raw segment gives it back exactly when it contains no `/` |
| JsonPointer.SegmentsOfPointer | core/profile_state.go:750-834 | splitting and decoding a pointer recovers the segments it was built from |
| JsonPointer.PointerInjective | core/profile_state.go:602-615 | different key paths have different pointers |
| JsonTree.JsonPointerValue | core/profile_state.go:750-773 | the loop over raw segments finds the value the decoded path leads to, or nothing |
| JsonTree.LookupPointer | core/profile_state.go:750-773 | looking up a path by its pointer equals looking it up by its keys |
| JsonTree.LeavesArePrefixFree | core/profile_state.go:602-615 | no leaf lies on the way to another |
| JsonTree.SortedKeys | core/profile_state.go:571-600 | keys collected in any map order and sorted are one list, the strictly increasing one |
| JsonTree.SetExistingIsWrite | core/profile_state.go:775-806 | a value is replaced exactly where one exists, and nothing is ever added |
| JsonTree.WrittenEffect | adapter/adapter.go:122-127 | a platform write settles its own field (null and absent being the same) and no field beside it |
| Leaves.LeavesAreLeaves | core/profile_state.go:602-615 | the collected paths are exactly the non-object positions below the root: arrays are leaves, empty objects declare none |
| Leaves.LeavesDistinct | core/profile_state.go:602-615 | no leaf is collected twice |
| Leaves.DeclaredPathsExact | core/profile_state.go:93-105 | the sorted declared paths are strictly increasing and are the pointers of the leaves, no more and no fewer |
| Leaves.LeafDeclared | core/profile_state.go:602-615 | the pointer of every leaf is declared |
| Leaves.LeafOfPointer | core/profile_state.go:602-615 | every declared path is the pointer of a leaf |
| Leaves.PathList.CollectDeclaredPaths | core/profile_state.go:602-615 | appends the pointers of all leaves below a value to what was collected before |
| Leaves.PathList.CollectFields | core/profile_state.go:602-615 | the loop over the sorted keys does so for one object |
| Leaves.DeclaredPathsOf | core/profile_state.go:415-427 | the collected and sorted list is the declared path list |
| ProfileState.ValidateNested | core/profile_state.go:701-717 | accepts exactly the values within the nesting limit whose objects have no blank and no `processor` key |
| ProfileState.ValidateAndCountObject | core/profile_state.go:673-699 | accepts the same objects and counts their leaves |
| ProfileState.CanonicalProfileState | core/profile_state.go:617-671 | succeeds exactly on valid states, with the number of their leaves |
| ProfileState.CountResumes | core/profile_state.go:617-671 | accepts exactly maps of non-blank resume ids to objects, and counts their leaves |
| ProfileState.NewProfileStateResource | core/profile_state.go:50-66 | builds a resource, its tag trimmed, exactly from a tag that is not blank, a profile and a valid state that declares something |
| ProfileState.ChangeList.DiffDeclaredValue | core/profile_state.go:571-600 | the recursive diff appends exactly the changes that looking up every leaf in both trees yields |
| ProfileState.ChangeList.DiffFields | core/profile_state.go:571-600 | the descent by keys sees the same values as lookups by longer paths |
| ProfileState.DiffProfileState | core/profile_state.go:553-569 | the sorted diff is the planned change list and fails only above the change limit |
| ProfileState.ValidateChanges | core/profile_state.go:369-412 | accepts exactly strictly ordered change lists with well-formed entries |
| ProfileState.ValidateProposal | core/profile_state.go:369-412 | accepts exactly the valid proposals |
| ProfileState.ValidateObservation | core/profile_state.go:223-238 | accepts exactly the valid observations |
| ProfileState.ValidateResource | core/profile_state.go:68-89 | accepts exactly the valid resources |
| ProfileState.ClassifyField | core/profile_state.go:432-485 | one field is done, waiting for its change, or in conflict, as an independent judgement of its three values says |
| ProfileState.ClassifyFields | core/profile_state.go:432-485 | the loop stops at the first conflict and otherwise collects what waits, in order |
| ProfileState.ChangesToApply | core/profile_state.go:432-485 | returns exactly the remaining changes; the three error cases are told apart and a reported path really is in conflict |
| RetrySafety.DiffIsPointwise | core/profile_state.go:553-600 | the sorted recursive diff equals the plan read path by path through pointer lookups alone, strictly increasing |
| RetrySafety.PlannedSays | core/profile_state.go:553-600 | by pointer lookups alone: in path order, one change for each declared path whose values differ (null and absent being the same) and none for any other; it clears exactly where null is desired, and carries presence and digest of what stands there and the digest of what is desired |
| RetrySafety.PlanSaysDecides | core/profile_state.go:553-600 | no other list of changes says that |
| RetrySafety.PlannedProposalIsValid | core/profile_state.go:334-412 | a planned proposal passes validation exactly when it is within the change limit |
| RetrySafety.NewProfileStateProposal | core/profile_state.go:334-367 | succeeds exactly on valid inputs of one profile within the limit, with the two errors told apart; the changes say where observed and desired state differ, the proposal names whose it is and from what to what, and the closing validation never rejects |
| RetrySafety.RetryAfterPartialApply | core/profile_state.go:432-485 | on every observation: an error exactly when a declared field holds neither the planned-from nor the desired value, else in order exactly the changes not yet made |
| RetrySafety.RetrySays | core/profile_state.go:432-485 | by pointer lookups alone: refused exactly when a declared field differs both from what was planned from and from what is desired, else in path order exactly the planned changes whose field still differs |
| RetrySafety.FirstAttemptAppliesAll | core/profile_state.go:432-485 | on the planned-from observation all changes remain |
| RetrySafety.NothingLeftExactly | core/profile_state.go:432-485 | nothing remains exactly when every declared path matches the desired tree, null equal to absent; for every proposal |
| RetrySafety.WriteStep | adapter/adapter.go:122-127 | one write settles its own declared field and no other |
| RetrySafety.WriteRunEffect | adapter/adapter.go:122-127 | after any sequence of writes a declared field is as desired if touched and unchanged if not |
| RetrySafety.WritesConverge | core/profile_state.go:432-485 | writing any of the remaining changes, in any order and repeatedly, leaves exactly the others; writing all leaves none |
| Overrides.AdmissibleMeans | core/profile_state.go:138-198 | the override loop accepts exactly distinct declared paths with non-object values |
| Overrides.OverridesReplaceExactly | core/profile_state.go:138-198 | accepted overrides always go through, hold their values, leave every other lookup alone and keep the declared paths |
| Overrides.ReplaceLeaf | core/profile_state.go:775-806 | replacing one leaf by a non-object changes no other lookup and no leaf position |
| Overrides.ReplaceLeaves | core/profile_state.go:138-198 | the loop succeeds exactly on admissible overrides and computes their effect; an in-range replacement never fails |
| Overrides.ExchangeInState | core/profile_state.go:617-717 | exchanging one leaf for another exchanges their parts in the validity of the state, valid or not: a value counts at the depth of its place |
| Overrides.OverriddenIsValidExactly | core/profile_state.go:138-198 | an overridden state is valid exactly when every override value is valid at the depth of its own path |
| Overrides.WithOverrides | core/profile_state.go:138-198 | succeeds exactly on a valid resource and at least one override, all naming distinct declared leaves with non-object values that are valid at their own depths; the result holds every value and differs nowhere else; an error names an override that breaks the rule it stands for; the final ownership comparison can never fail |
| Tailoring.ComparePaths | core/application_tailoring.go:354-394 | decides in one pass whether the paths are exactly those both trees declare and whether the trees differ |
| Tailoring.ValidatePaths | core/application_tailoring.go:354-394 | accepts exactly non-empty, exactly declared paths of trees that differ |
| Tailoring.ValidateRecord | core/application_tailoring.go:109-176 | accepts exactly the valid records |
| Tailoring.TransitionsTold | core/application_tailoring.go:178-270 | what each transition changes, and nothing else: status, plan or reason, one revision and the time |
| Tailoring.TransitionsStayValid | core/application_tailoring.go:178-256 | no transition allowed from a valid record fails its closing validation |
| Tailoring.Draft.BeginApply | core/application_tailoring.go:178-188 | succeeds exactly from Planned with a proposal id and a later time, and gives the next record |
| Tailoring.Draft.RecordApplied | core/application_tailoring.go:190-203 | succeeds exactly from Applying on an observation equal to the tailored state |
| Tailoring.Draft.BeginSubmit | core/application_tailoring.go:205-214 | succeeds exactly from Applied |
| Tailoring.Draft.BeginRestore | core/application_tailoring.go:216-226 | succeeds exactly from Applied or Submitting with a proposal id |
| Tailoring.Draft.RecordRestored | core/application_tailoring.go:228-240 | succeeds exactly from Restoring on an observation equal to the baseline |
| Tailoring.Draft.RequireRecovery | core/application_tailoring.go:242-256 | succeeds from every status but Restored with a reason that is not blank, and stores it trimmed |
| Remote.ShapesDetermineTree | adapter/adapter.go:111-115 | two trees with the same shape at every path are the same tree |
| Remote.SnapshotShows | adapter/adapter.go:111-115 | a snapshot of separate paths shows at each what the account holds there |
| Remote.SameEverywhere | adapter/adapter.go:111-127 | an account that differs from another at no path outside and at no path inside the allowed ones is that account |
| TailoringRuns.CrashAndRetry | worker/application_tailoring.go:85-310 | a crash after any effect followed by any continuation of the durable state is again a run |
| TailoringRuns.SoundRun | worker/application_tailoring.go:85-310 | every run keeps: stored proposals are their own plans, stored records are valid and refer to their plans, one record per profile is under way |
| TailoringRuns.WriteEffect | worker/application_tailoring.go:325-348 | a permitted write puts the baseline or the tailored value at one allowed path of the active record and changes no other allowed path, whatever the account holds |
| TailoringRuns.ComparedIsNotForeign | adapter/adapter.go:122-127 | a comparison without conflict has seen no foreign value at any declared path |
| TailoringRuns.ClobberingExactly | worker/application_tailoring.go:171-310 | every write of every run happens while the stored record is Applying or Restoring with exactly that proposal and rests on an earlier comparison; it overwrites a foreign value exactly when a third party has put one there since that comparison and nothing has touched it again, and otherwise a value of the record itself |
| TailoringRuns.EditBetweenIsOverwritten | adapter/adapter.go:122-127 | the comparison does not protect what is edited after it: from every world in which a proposal may be written, for every field and every edit, a run overwrites the edit |
| TailoringRuns.FinalRecordsStay | worker/application_tailoring.go:371-389 | Restored and RecoveryRequired are kept for good; under RecoveryRequired nothing is written any more, and no write belongs to a Restored record |
| TailoringSafety.CreatedSafelyExactly | worker/application_tailoring.go:85-169 | a new saga takes the account as it is for its baseline exactly when the reading it rests on still stands as it is stored |
| TailoringSafety.ContainedEdit | adapter/adapter.go:111-127 | an edit beside the paths of the saga under way leaves every reading of them as it was, and the account again differs from what third parties would have made of it at those paths only |
| TailoringSafety.SagaSafety | worker/application_tailoring.go:85-310 | over all runs of crashes, retries, partial writes and edits beside the paths of the saga under way the account is what third parties alone would have made of it, but for those paths, each of which holds the baseline or the tailored value; entirely so whenever no saga is under way |
| TailoringSafety.SubmittingShowsTailored | worker/application_tailoring.go:219-248 | in such runs a saga stored as Submitting is the one under way and the account shows its tailored values |
| TailoringSafety.RestoredIsOriginal | worker/application_tailoring.go:292-310 | Restored is stored only when the whole account is back |
| TailoringSafety.RestoredShowsBaseline | worker/application_tailoring.go:292-310 | in such runs the store of Restored leaves the account as third parties would have it, and a reader sees the baseline |
| TailoringSafety.QuietSafety | worker/application_tailoring.go:85-310 | without third-party edits every record is stored on a reading that stands, and the account is the original one but for the saga under way |
| TailoringSafety.QuietShowsBaselines | worker/application_tailoring.go:292-310 | without third-party edits, once no saga is under way a reader sees the baseline of every saga of the run |
| TailoringCoordinator.Coordinator.ReadProfileState | adapter/adapter.go:111-115 | the environment read: current values at all requested paths or a failure, recorded as a reading |
| TailoringCoordinator.Coordinator.CompareState | adapter/adapter.go:122-127 | the comparing read of the writer: current values at all declared paths, recorded as a reading and as what was compared |
| TailoringCoordinator.Coordinator.WriteField | adapter/adapter.go:122-127 | the environment write: one field of the compared proposal, whatever the account holds by now; it may fail before or after it took effect |
| TailoringCoordinator.Coordinator.ApplyProfileState | adapter/adapter.go:122-127 | the writer: one comparison, then fields in any order and number, then a read-back, or the comparing read if nothing is pending; stores are untouched; if nothing goes wrong it reports a conflict exactly when a foreign value stands at a declared path |
| TailoringCoordinator.Coordinator.StoreProposal | storage/memory/profile_state.go:14-39 | idempotent by id and by input key; whatever is returned is stored, valid and has the asked-for key; a failure may follow the effect |
| TailoringCoordinator.Coordinator.ByApplication | storage/memory/application_tailoring.go:60-74 | may or may not return a restored record; not found or restored means none of the application is under way |
| TailoringCoordinator.Coordinator.SaveRecord | storage/memory/application_tailoring.go:76-107 | compare-and-swap on the revision: reported means stored, and a reported failure means stored or not at all |
| TailoringCoordinator.Coordinator.StoreRecord | storage/memory/application_tailoring.go:13-42 | idempotent on the same inputs, refused while the profile is locked by another record; a failure may follow the effect; whatever is returned is stored and has the inputs asked for |
| TailoringCoordinator.Coordinator.CreateProposal | worker/application_tailoring.go:312-323 | a stored plan from the observed to the resource state; if nothing goes wrong it is there exactly for valid parts of one profile within the change limit |
| TailoringCoordinator.Coordinator.ApplyProposal | worker/application_tailoring.go:325-348 | success means the read-back leaves nothing of the plan to apply; if nothing goes wrong it succeeds exactly when no foreign value stands at a declared path, and otherwise reports a conflict |
| TailoringCoordinator.Coordinator.MarkRecovery | worker/application_tailoring.go:380-389 | reports recovery only after it is stored; unless the store or the clock fails it is stored |
| TailoringCoordinator.Coordinator.HandleMutationError | worker/application_tailoring.go:371-378 | a conflict, and nothing else, ends the saga in recovery, and always does if storing it succeeds |
| TailoringCoordinator.Coordinator.StartApply | worker/application_tailoring.go:171-217 | Applying and its proposal id are stored before any write; if nothing goes wrong exactly when the plan is within the change limit |
| TailoringCoordinator.Coordinator.FinishApply | worker/application_tailoring.go:171-217 | Applied is stored only after the plan was executed and read back; if nothing goes wrong: with no foreign value at its paths exactly when the account then reads as tailored, and with one the saga is stored as in need of recovery |
| TailoringCoordinator.Coordinator.DriveApply | worker/application_tailoring.go:171-217 | success leaves the saga Applied or Submitting with its inputs unchanged; if nothing goes wrong the outcome is told status by status |
| TailoringCoordinator.Coordinator.Apply | worker/application_tailoring.go:85-169 | every path through planning, storing, resuming and driving is a run of the step system; a new saga carries exactly the overrides decided on, every other lookup as read; an existing one keeps its inputs; without overrides nothing is stored or written; if nothing goes wrong a new saga is refused exactly when the overrides do not fit, the profile is taken or the plan is too long, and else succeeds exactly when the account reads as what was read with the overrides put in |
| TailoringCoordinator.Coordinator.PlanRecord | worker/application_tailoring.go:85-169 | the record of a new saga is valid, Planned, takes the read state as its baseline, and holds every override and nothing else that differs; there is one exactly when the overrides fit |
| TailoringCoordinator.Coordinator.Plan | worker/application_tailoring.go:105-169 | an application without a saga: what is read goes to the processor, and its overrides into the saga |
| TailoringCoordinator.Coordinator.Begin | worker/application_tailoring.go:135-169 | the new saga is stored ahead of being driven, and carries the overrides |
| TailoringCoordinator.Coordinator.Resume | worker/application_tailoring.go:95-101 | an existing saga is driven only for the attempt it belongs to, with its inputs unchanged |
| TailoringCoordinator.Coordinator.BeginSubmit | worker/application_tailoring.go:219-248 | success leaves no saga of the application other than Submitting or Restored, writes nothing and ends no saga; if nothing goes wrong an applied saga begins exactly when the account reads as tailored, and drift is stored as in need of recovery |
| TailoringCoordinator.Coordinator.SubmitOnTailored | worker/application_tailoring.go:219-248 | Submitting is stored only on a reading equal to the tailored state, and on any other the saga is stored as in need of recovery |
| TailoringCoordinator.Coordinator.StartRestore | worker/application_tailoring.go:250-310 | Restoring is stored, with a plan from what was read, before any write; a reading that is neither the tailored nor the baseline state ends in recovery |
| TailoringCoordinator.Coordinator.FinishRestore | worker/application_tailoring.go:250-310 | Restored is stored only on a reading equal to the baseline, and frees the profile; if nothing goes wrong exactly when the account then reads as it was, and a foreign value at its paths ends in recovery |
| TailoringCoordinator.Coordinator.Revert | worker/application_tailoring.go:280-300 | without changes to make a reading will do; otherwise the plan is applied |
| TailoringCoordinator.Coordinator.Restore | worker/application_tailoring.go:250-310 | success leaves no saga of the application under way; if nothing goes wrong the outcome is told status by status |
| TailoringCoordinator.Coordinator.DriveRestore | worker/application_tailoring.go:250-310 | success frees the profile; if nothing goes wrong the account is back exactly on success |
| Application.ApplicationDraft.Transition | core/application.go:205-227 | succeeds exactly on permitted successors at a time that does not go back; attempts count entries into Submitting |
| Application.MayMoveTold | core/application.go:316-344 | which transitions there are, target by target; none goes back in time |
| Application.MovedTold | core/application.go:205-227 | what a transition changes, and nothing else: status, time, the count of attempts on entering one, and on submission its time and the failure before it |
| Application.ResetTold | core/application.go:248-269 | what sending back forgets: decision, texts, preparation and failure; the attempts are kept |
| Application.ApplicationDraft.Fail | core/application.go:229-242 | the failing transition and its recorded category |
| Application.ApplicationDraft.ResetForRetry | core/application.go:248-269 | only blocked, failed and skipped applications go back; preparation is forgotten, attempts are not |
| Application.ApplicationDraft.RecordPreparation | core/application.go:278-309 | only while preparing or ready, with a code and a reason that are not blank, and with no provenance or a valid one that carries the digest of the stored message; all texts are stored trimmed |
| Application.WayBackExactly | core/application.go:316-344 | in the table of transitions a chain back to Submitting without Failed exists exactly from the statuses other than PendingReconcile, Submitted, DryRun and Failed |
| Application.PendingResubmitsThroughFailed | core/application.go:316-344 | every chain from PendingReconcile back to Submitting passes Failed and then Ready |
| SubmitRuns.WellKeptRun | worker/application.go:373-647 | every run keeps, however old the copies saved by others: what the worker is inside of is stored as Submitting, open attempts hold a reservation, submitted applications hold or have used one |
| SubmitCalls.RevisionKeepsExactly | worker/validation_refresh.go:102-109 | saving a copy keeps all submissions covered by stored attempts exactly when none of them was made under an attempt the copy does not know |
| SubmitCalls.CurrentIsNotOutrun | workflow/application_retry.go:55-69 | a copy whose attempts are still the stored ones is such a copy |
| SubmitCalls.SavedCopyExactly | workflow/application_retry.go:55-69 | over every run: a copy read at one desk and saved at a later one leaves all submissions covered exactly when none was made in between under an attempt above that of the copy |
| SubmitCalls.CopyWasStored | internal/tools/approve/run.go:69-80 | whatever copy is in use was the stored application when it was loaded |
| SubmitCalls.CoveredExactly | worker/application.go:373-647 | over all runs of redeliveries, crashes and changes from outside the lane, submissions stay covered by stored attempts and unrepeated, platform and browser alike, exactly when no copy is saved after a submission it does not know |
| SubmitCalls.AtMostOneCallPerAttempt | worker/application.go:588-647 | in those runs the platform calls of an application never outnumber its stored attempts; likewise the browser calls |
| SubmitCalls.NoCallUntilReset | worker/application.go:417-428 | between an attempt whose outcome is open or settled and any further submission lies a save that sends the application back while it is stored as failed; no copy is too old for this |
| SubmitCalls.CrashParks | worker/application.go:417-428 | a crash anywhere inside an attempt leaves its outcome open |
| SubmitCalls.ResubmissionExactly | worker/application.go:373-647 | from any desk a run leads to a submission of the application without its being sent back as failed exactly when its outcome is neither open nor settled and it is no dry run |
| SubmitCalls.BrowserFailureIsNotReconciled | worker/application.go:1021-1031 | a failed browser submission is not treated as ambiguous: from every such attempt a run submits again, and nothing is ever pending or failed on the way |
| SubmitCalls.StaleResetForgetsAnAttempt | workflow/application_retry.go:55-69 | from any desk with the application ready and as many attempts as calls, a run of two failed attempts, in which the copy read after the first is saved again after the second, ends with more calls than attempts |
| SubmitRuns.ReserveKeepsLimit | storage/memory/application_budget.go:11-58 | a reservation within a limit keeps every window within it |
| SubmitRuns.GrantedExactly | storage/memory/application_budget.go:11-58 | a reservation is granted exactly when none of a later window stands in the way and the application counts against the window already or the others leave room; no other application is touched, and an exhausted day releases what was left of an earlier one |
| SubmitRuns.SettledTold | storage/memory/application_budget.go:68-97 | settling is idempotent, reopens nothing final, and needs a reservation to use but none to release |
| SubmitRuns.SettleKeepsLimit | storage/memory/application_budget.go:68-97 | settling a reservation takes no window over the limit |
| SubmitRuns.BudgetKept | core/application_budget.go:74-88 | no run takes any window over the highest limit asked for |
| SubmitRuns.DailyLimitKept | worker/application.go:564-647 | across crashes no window carries more submitted or possibly submitted applications than the limit, and all of them are funded |
| SubmitHandler.FailuresTold | worker/application.go:895-1016 | where each failure leaves the application: open exactly if the outcome is unknown, ready exactly if the failure may pass, skipped for a closed vacancy or an unwanted test, waiting for any other demand, failed otherwise; and which of them are reported |
| SubmitHandler.PreparationsTold | worker/application.go:447-545 | what becomes of a vacancy that cannot be loaded and of each decision |
| SubmitHandler.AnswersTold | worker/application.go:607-647 | if nothing else goes wrong: what the whole invocation makes of each answer of the platform, in the stored status, the report, the reservation and the tailoring |
| SubmitHandler.CallsTold | worker/application.go:373-613 | if nothing goes wrong the platform is called exactly for an application not yet started or sent back unprepared, under a submitting plan, once it is prepared or a decision to apply can be recorded, and when the budget has room |
| SubmitHandler.RedeliveriesTold | worker/application.go:388-435 | if nothing goes wrong: how a delivery ends that is not taken further, status by status |
| SubmitHandler.EndingsTold | worker/application.go:436-559 | if nothing goes wrong: how a delivery ends without a plan, without a vacancy, and in the modes that do not submit |
| SubmitHandler.DeclinesTold | worker/application.go:514-545 | if nothing goes wrong: a decision to skip or to ask ends in its status |
| SubmitHandler.OthersUntouched | worker/application.go:373-647 | a whole invocation leaves the budget, the calls and, but for what others save, the record of every other application alone |
| SubmitHandler.ApplicationHandler.SaveApplication | storage/memory/repository.go:369-388 | compare-and-swap on the stored status, which may also report a failure after it took effect; calls and budget are untouched |
| SubmitHandler.ApplicationHandler.SettleBudget | worker/application.go:1150-1166 | success means the reservation is no longer held, and is used when committing |
| SubmitHandler.ApplicationHandler.ReserveBudget | worker/application.go:1120-1130 | success means the reservation is held |
| SubmitHandler.ApplicationHandler.RestoreTailoring | worker/application.go:668-673 | success means no tailoring of the application is under way |
| SubmitHandler.ApplicationHandler.BeginTailoringSubmit | worker/application.go:661-666 | for a plan with a tailoring, success means none of the application is under way but the one that is submitting |
| SubmitHandler.ApplicationHandler.SubmitApplication | worker/application.go:607-613 | at most one platform call, under the stored attempt, whether or not its result arrives, with third parties editing the account up to it; the call of a plan with a tailoring, and no other, is recorded with the world it was made in, the tailoring applied and its overrides |
| SubmitHandler.ApplicationHandler.Abandon | worker/application.go:982-1000 | the definite end of an attempt: stored with the given status or not at all; success means it was, and the reservation is not held |
| SubmitHandler.ApplicationHandler.Park | worker/application.go:521-545 | saves the prepared copy over exactly the record it was loaded from; success means the status was reached |
| SubmitHandler.ApplicationHandler.CloseBeforeAttempt | worker/application.go:450-465 | skip, release, restore: success means all three |
| SubmitHandler.ApplicationHandler.SaveAndRelease | worker/application.go:911-925 | success means the record was stored, the reservation is no longer held and no tailoring of the application is under way |
| SubmitHandler.ApplicationHandler.SaveAndCommit | worker/application.go:631-646 | success means Submitted is stored, the reservation is used and no tailoring of the application is under way |
| SubmitHandler.ApplicationHandler.BrowserFallback | worker/application.go:1021-1063 | at most one browser call, only after confirmation was required; a handled success settles reservation and tailoring |
| SubmitHandler.ApplicationHandler.FinishFailure | worker/application.go:895-1016 | every failure leaves the stored record in the status its code and category demand, or untouched, and whatever is no valid operation error counts as permanent; an unknown outcome leaves the attempt in flight and its reservation held, whatever else fails; if nothing else goes wrong status, report, reservation and tailoring are those of the failure |
| SubmitHandler.ApplicationHandler.LeaveOpen | worker/application.go:926-933 | an ambiguous result leaves the attempt in flight and its reservation held; unless storing fails it is stored as pending and reported |
| SubmitHandler.ApplicationHandler.GiveUp | worker/application.go:1001-1015 | any other failure is stored as Failed with its category and reported; unless something fails the reservation is released and the tailoring restored |
| SubmitHandler.ApplicationHandler.SendBack | worker/application.go:982-1000 | failures that may pass send the application back to Ready and are reported; unless something fails the reservation is released and the tailoring restored |
| SubmitHandler.ApplicationHandler.AskForValidation | worker/application.go:942-981 | a validation demand skips or parks the application, with its reservation settled on success |
| SubmitHandler.ApplicationHandler.Reconcile | worker/application.go:1065-1118 | found applications end Submitted, others Failed; success settles both the outcome and the reservation |
| SubmitHandler.ApplicationHandler.Prepare | worker/application.go:446-546 | goes on only with a copy of the same attempt that carries the decision taken; otherwise nothing is in flight and the record ends as vacancy and decision demand |
| SubmitHandler.ApplicationHandler.Decide | worker/application.go:480-545 | only a decision to apply that can be recorded goes on; skips and reviews end in the status they demand |
| SubmitHandler.ApplicationHandler.Unloadable | worker/application.go:447-479 | only a valid operation error is acted on: a closed vacancy is skipped, with its reservation released on success, and a permanent failure is stored as Failed; any other error is reported and leaves the record untouched |
| SubmitHandler.ApplicationHandler.Fund | worker/application.go:564-587 | going on means the reservation is held, the stored record is still the loaded one, and a plan with a tailoring has been through the coordinator; a refused budget stores the application as ready |
| SubmitHandler.ApplicationHandler.ApplyTailoring | worker/application.go:649-659 | success of a plan with a tailoring means the coordinator was asked; what it applied is under way for the application and carries the overrides |
| SubmitHandler.ApplicationHandler.EnterAttempt | worker/application.go:588-593 | Submitting is stored with one more attempt and the same words, inside which nothing has been called |
| SubmitHandler.ApplicationHandler.Submit | worker/application.go:594-647 | at most one platform and one browser call under the stored attempt; an unknown outcome stays open and funded; success settles reservation and tailoring; if nothing else goes wrong the call is made and its answer decides status and report |
| SubmitHandler.ApplicationHandler.Conclude | worker/application.go:613-647 | the answer decides the stored status: submitted, already applied, or the failure it stands for; an unknown outcome stays open and funded |
| SubmitHandler.ApplicationHandler.Interrupted | worker/application.go:417-428 | an attempt found under way becomes pending and is reported as ambiguous |
| SubmitHandler.ApplicationHandler.Redelivered | worker/application.go:388-428 | what a redelivery finishes without submitting, status by status, and which ones it takes further |
| SubmitHandler.ApplicationHandler.Proceed | worker/application.go:436-647 | from the resolved plan on: at most one call of each kind, under the next attempt, and only in submit mode; a dry run or approval ends in its own status; what is sent is what was prepared |
| SubmitHandler.ApplicationHandler.Run | worker/application.go:388-647 | one invocation on a stored record |
| SubmitHandler.ApplicationHandler.Handle | worker/application.go:373-647 | a delivery is a run of the protocol; it makes at most one platform and one browser submission, both under the attempt after the stored one, only from a startable status and only for a plan in submit mode; after an answer that leaves the outcome unknown the application is parked with its reservation held; success after a call leaves the reservation settled and every tailoring of the application restored; an application inside an attempt is never submitted; if nothing goes wrong the outcome is told in full |
| SubmitHandler.ApplicationHandler.TailoredCallsShowTailored | worker/application.go:594-613 | over every history with considerate third parties: at each platform call made for a plan with a tailoring, whatever tailoring of the application is not restored is the one under way, the account shows its tailored values, and beside them it is as third parties alone would have it |
| SubmitHandler.ApplicationHandler.TailoredCallsHoldOverrides | worker/application.go:594-613 | and so, over every such history, at each platform call the account holds every override the tailoring applied for it was made with |
| SubmitHandler.ApplicationHandler.NothingLeftBehind | worker/application.go:668-673 | over every such history: with no tailoring under way the account is what third parties have made of it |
| Lanes.LaneKept | worker/profile_mutation_lane.go:38-65 | over all interleavings and cancelled waits at most one operation runs per profile and each token is conserved |
| Lanes.NobodyWaitsInVain | worker/profile_mutation_lane.go:38-53 | a waiting caller can go on exactly when nobody runs on its profile, and returning the token never blocks |
| Employers.CompileRules | operator/employer.go:69-81 | accepts exactly rules with one identity each and no two the same |
| Employers.RuleTold | operator/employer.go:112-124 | a rule names exactly one identity: an identifier with its platform, or a name |
| Employers.KeysSeparateRules | operator/employer.go:112-124 | rules whose texts hold no NUL have one key only if they are the same |
| Employers.CompileIncludes | operator/employer.go:81-92 | accepts exactly non-blank includes without repetition |
| Employers.CompileGroup | operator/employer.go:60-97 | accepts exactly the valid groups |
| Employers.CompileGroups | operator/employer.go:58-98 | accepts exactly valid groups with distinct tags |
| Employers.GroupTold | operator/employer.go:58-98 | each configured group is found under its tag, its rules and includes in order |
| Employers.IncludesKnown | operator/employer.go:99-105 | accepts exactly the graphs whose includes are all known |
| Employers.RankedIsAcyclic | operator/employer.go:201-242 | a finishing order of all groups rules cycles out |
| Employers.IncludeWalk.Visit | operator/employer.go:207-234 | the coloured search ends, keeps its stack a path and its finished groups in order, and reports only real cycles |
| Employers.IncludeWalk.CloseCycle | operator/employer.go:209-218 | the reported slice of the stack is a cycle |
| Employers.ValidateAcyclic | operator/employer.go:201-242 | accepts exactly the acyclic include graphs |
| Employers.NewEmployerGroupMatcher | operator/employer.go:58-110 | builds a matcher exactly from acceptable configurations |
| Employers.DirectEvidence | operator/employer.go:171-189 | identifiers are tried before names |
| Employers.DirectTold | operator/employer.go:171-189 | a group names a vacancy itself by its employer's identifier on its platform, or else by name, on its platform or on any; the evidence says which |
| Employers.MatchRun.MatchGroup | operator/employer.go:162-199 | with any earlier cache content the result is that of matching without a cache |
| Employers.EmployerGroupMatcher.MatchesExactly | operator/employer.go:162-199 | a group matches exactly when a group reachable through includes names an identity of the vacancy; its own identities come first, and evidence through an include names the first one that matches |
| Employers.EmployerGroupMatcher.Match | operator/employer.go:126-138 | lists exactly the matching groups, in configuration order |
| Employers.EmployerGroupMatcher.MatchedAt | operator/employer.go:126-138 | each matching group is listed at the place the configuration gives it, with its evidence |
| Employers.EmployerGroupMatcher.MatchAny | operator/employer.go:140-152 | finds the first wanted group that matches, if any does |
| Questionnaires.ValidateQuestion | core/questionnaire.go:556-587 | accepts exactly the valid questions |
| Questionnaires.ValidateQuestionnaire | core/questionnaire.go:538-554 | accepts exactly the valid questionnaires |
| Questionnaires.ValidateAnswers | core/questionnaire.go:442-468 | accepts exactly valid answers that are distinct by fingerprint or text |
| Questionnaires.ValidateAnswerBlock | core/questionnaire.go:399-470 | accepts exactly the valid blocks |
| Questionnaires.HeaderTold | core/questionnaire.go:401-437 | which descriptors and matchers go with which kind of block |
| Questionnaires.AnswerTold | core/questionnaire.go:441-468 | a stored answer is a text or options, not both and not neither |
| Questionnaires.KeysTold | core/questionnaire.go:447-456 | two answers are to the same question by their fingerprints, or by their texts if neither has one |
| Questionnaires.NormalExactly | core/questionnaire.go:184-188 | texts normalise alike exactly when, in lower case, they are the same words |
| Questionnaires.QuestionFingerprint | core/questionnaire.go:193-209 | the digest of kind, text and sorted options of a valid question, an error otherwise |
| Questionnaires.ObservedAttemptFingerprint | core/questionnaire.go:214-231 | the digest of the sorted question fingerprints |
| Questionnaires.PresentationIgnored | core/questionnaire.go:193-209 | option order and runtime ids do not reach the fingerprint |
| Questionnaires.SignatureParts | core/questionnaire.go:193-209 | against a separator-free question an equal signature agrees part by part |
| Questionnaires.FingerprintDecides | core/questionnaire.go:193-209 | of two valid questions with equal fingerprints, one separator-free, the other has the same content exactly when none of its options contains the unit separator |
| Questionnaires.AttemptIgnoresOrder | core/questionnaire.go:214-231 | attempts have equal fingerprints exactly when they hold the same question fingerprints in some order |
| AnswerResolution.IndexOptions | core/questionnaire.go:511-519 | an index is built exactly for distinct option texts |
| AnswerResolution.ResolveOptions | core/questionnaire.go:511-536 | succeeds exactly on distinct offered texts and gives their ids in order |
| AnswerResolution.ResolveStoredAnswer | core/questionnaire.go:472-501 | the resolution function, kind by kind |
| AnswerResolution.TextResolvesExactly | core/questionnaire.go:472-501 | a text question takes exactly a text and no options, and answers with that text |
| AnswerResolution.ChoiceResolvesExactly | core/questionnaire.go:472-536 | a single choice takes exactly one offered option, a multiple choice one or more different offered ones, and neither a text |
| AnswerResolution.ChoiceNamesItsOptions | core/questionnaire.go:511-536 | each selected text is answered by the id of the option that has it, in order |
| AnswerResolution.NothingElseResolves | core/questionnaire.go:472-501 | code questions, and any of an unknown kind, take no answer |
| AnswerResolution.FitsExactly | core/questionnaire.go:297-321 | an answer fits a question exactly when it is stored for its text, with its fingerprint or none, and resolves |
| AnswerResolution.FittingGoThrough | core/questionnaire.go:271-331 | answers that fit their questions one by one are matched |
| AnswerResolution.EachKindGoesThrough | core/questionnaire.go:271-331 | a text, one option of a single and two options of a multiple choice go through together |
| AnswerResolution.ResolvedNames | core/questionnaire.go:472-536 | the chosen ids name options of that question with the selected texts |
| AnswerResolution.SameContentSameAnswers | core/questionnaire.go:472-536 | questions that differ in presentation only take the same answers and choose options of the same text in the same order |
| AnswerResolution.FingerprintJustifiesReuse | core/questionnaire.go:242-259 | equal fingerprints of separator-free questions justify reusing any stored answer |
| AnswerResolution.ReuseExactly | core/questionnaire.go:242-259 | of two valid questions with equal fingerprints, one separator-free, every stored answer resolves for both or neither exactly when no option of the other contains the unit separator |
| AnswerResolution.SeparatorsCollide | core/questionnaire.go:193-209 | without that condition: two valid questions with one fingerprint, one of which takes an answer the other refuses |
| AnswerResolution.ResolveNext | core/questionnaire.go:299-321 | one question resolves exactly when a stored answer fits it |
| AnswerResolution.ResolveAll | core/questionnaire.go:297-330 | the size comparison finds exactly the left-over answers |
| AnswerResolution.ResolveAnswerBlock | core/questionnaire.go:271-331 | succeeds exactly when answers and questions correspond one to one and fit; output in presentation order under the tag and name of the block |
| AnswerResolution.UncoveredQuestions | core/questionnaire.go:336-369 | lists exactly the uncovered questions, in order |
| AnswerResolution.MissingExactly | core/questionnaire.go:336-369 | nothing is listed exactly when every question is covered |
| AnswerResolution.MissingAt | core/questionnaire.go:336-369 | each uncovered question is listed at the place its order gives it, and no other is |
| AnswerResolution.ResolveBlockAnswers | core/questionnaire.go:374-395 | succeeds exactly when every question has a fitting answer |
| AnswerResolution.PresentedOnce | core/questionnaire.go:271-395 | what is resolved for a questionnaire is unique |
| AnswerResolution.StrictImpliesLenient | core/questionnaire.go:271-395 | whenever the strict resolution succeeds nothing is uncovered and the lenient one succeeds |
| Schedules.JitterWithinBounds | scheduler/scheduler.go:257-264 | in 64-bit arithmetic the jitter stays within its bounds |
| Schedules.JitterReachesAll | scheduler/scheduler.go:257-264 | every value in the bounds is reached by some digest |
| Schedules.KeptRun | scheduler/scheduler.go:118-206 | over all runs of reconcilers, resumes, retries, crashes and configuration changes an occurrence gets at most one task, for the profile and with the payload of its entry, made available within its jitter |
| Schedules.TasksStay | scheduler/scheduler.go:182-206 | tasks are never taken back |
| Schedules.OccurrencesMoveForwardExactly | scheduler/scheduler.go:118-180 | between configuration changes a schedule is never taken back exactly when no resume of its job comes earlier than the occurrence stored then; and if so it ends no earlier than it began |
| Schedules.ResumeGoesBack | storage/sqlite/job_pause.go:73-97 | without that condition: resuming a job ahead of its next occurrence takes it back, from every such state |
| Schedules.EachMovePassesNow | storage/sqlite/scheduler.go:129-137 | a reconciler moves a schedule only at a due occurrence and past the time it does so, so missed occurrences collapse; a resume moves it to the time of the resume; nothing else does, and the definition stays |
| Schedules.EnqueueExactly | scheduler/scheduler.go:153-168 | one more task leaves a job with at most one active task per profile exactly when its occurrence has it already or no other is active |
| Schedules.RestartExactly | core/task.go:259-278 | restarting a failed task leaves a job with at most one active task per profile exactly when no other task of its job and profile is active |
| Schedules.OneActiveExactly | scheduler/scheduler.go:153-168 | over all runs of reconcilers that look for an active task before they make one, no job ever has two active tasks for a profile exactly when none is restarted while another of its job is active and none is made although another became active since the look for it and still is |
| Schedules.OneReconcilerKeepsIt | cmd/job-agent/main.go:2991-2999 | with one reconciler, as the program starts it, and no restarts, no job ever has two active tasks for a profile |
| Schedules.TwoReconcilersCollide | scheduler/scheduler.go:153-168 | two reconcilers that both look before either makes its task leave two active ones, from every state with two occurrences of one job open |
| Schedules.RestartCollides | workflow/task_control.go:26-42 | one reconciler and a retry of a failed task after the next was made leave two active ones, from every such state |
| Schedules.Scheduler.HasActiveTask | storage/sqlite/scheduler.go:118-127 | whether an unfinished task of the job and profile existed at the recorded point of the history where it was looked for |
| Schedules.Scheduler.DueSchedules | storage/sqlite/scheduler.go:68-81 | the due entries in the order of the query: all of them, or as many of the first as the limit allows |
| Schedules.Scheduler.EnqueueEntry | scheduler/scheduler.go:182-206 | success means the occurrence has its task |
| Schedules.Scheduler.MakeIfWanted | scheduler/scheduler.go:153-168 | without a failure there has been a look for active tasks and, if it found none, a question to the gate; the occurrence has its task if the gate let it through, and none was made otherwise |
| Schedules.Scheduler.AdvanceEntry | storage/sqlite/scheduler.go:129-137 | the schedule is asked to move a whole interval on or to where its expression fires next, and does exactly if it still stands where the entry had it; success means it has passed the entry unless the job was resumed or the configuration changed since |
| Schedules.Scheduler.ReconcileEntry | scheduler/scheduler.go:135-178 | unless it is paused there has been a look and a question to the gate; the task of a job that was not active and was let through exists before the schedule moves on, and no other is made; it fails exactly when the store or the gate does |
| Schedules.Scheduler.ReconcileDue | scheduler/scheduler.go:118-180 | a pass fails exactly when the store or the gate does; otherwise every due entry is behind its schedule unless its job was resumed or the configuration changed meanwhile, every one that is not paused, had no active task when looked for and was let through by the gate has its task, the pass has made no other, and its count is that of the schedules it moved |
| Skills.ReadDecisions | operator/resume_tailoring_model.go:201-243 | the loop accepts exactly acceptable decisions about distinct skills and collects their meaning |
| Skills.AcceptableTold | operator/resume_tailoring_model.go:201-243 | which decisions are acceptable: of a skill of the resume or the vacancy, with evidence; a removal only where allowed and of a skill of the resume |
| Skills.AdditionAt | operator/resume_tailoring_model.go:218-226 | each decision to add a skill the resume lacks, and no other, adds it, in the order given |
| Skills.RemovalAt | operator/resume_tailoring_model.go:227-236 | each decision to remove, and no other, asks for a removal, in the order given |
| Skills.RecordedAt | operator/resume_tailoring_model.go:216-243 | every other decision is recorded in order, as an addition if it adds and as kept if not |
| Skills.DroppedExactly | operator/resume_tailoring_model.go:244-263 | a removal is made exactly if the ones named before it do not make room enough |
| Skills.WithoutAt | operator/resume_tailoring_model.go:255-263 | each skill that is not dropped stays, in order |
| Skills.ChosenFits | operator/resume_tailoring_model.go:244-270 | acceptable decisions always fit the limit, so the final check never rejects; with distinct current skills the size is the smaller of all skills and the limit |
| Skills.ChosenIsKeptThenAdded | operator/resume_tailoring_model.go:244-263 | the result is the current skills without the first removals named, in order, then every addition, each a vacancy skill |
| Skills.PlanFromDecisions | operator/resume_tailoring_model.go:177-286 | succeeds exactly on plannable decisions and drops exactly as many skills as needed, in the order named |
| Skills.ValidateDecisions | operator/resume_tailoring.go:106-123 | accepts exactly decisions with a skill, an evidence and a known action, no two about one skill |
| Skills.AllRecordedValid | operator/resume_tailoring.go:106-123 | what is recorded of acceptable decisions, the removals made included, always passes the closing validation |
| Skills.PolicyValid | operator/resume_tailoring.go:106-123 | what the policy records always passes the closing validation |
| Skills.AddVacancySkills | operator/resume_tailoring.go:153-228 | succeeds exactly on well-formed current skills within the limit; the current list is a prefix, the decisions are recorded in vacancy order, and the plan changes the account exactly when something was added |
| Skills.DecidesEach | operator/resume_tailoring.go:186-210 | one recorded decision for each skill the vacancy names, and none for any other |
| Skills.PolicyTold | operator/resume_tailoring.go:186-210 | a decision keeps a skill the resume has and adds any other, on the evidence of the vacancy |
| Skills.DecisionsSayIt | operator/resume_tailoring.go:186-210 | read as the decisions of the model are, they add exactly the skills the policy added |
| Skills.NewSkillsDistinct | operator/resume_tailoring.go:189-210 | all skills stay distinct |
| Skills.NewSkillsCover | operator/resume_tailoring.go:189-210 | every non-blank vacancy skill is covered |
| Skills.NewSkillsFromVacancy | operator/resume_tailoring.go:189-210 | every addition is a vacancy skill |
| ApplicationPages.GroupsTold | storage/application_query.go:70-102 | which group each entry is listed in: imported history apart, sent applications by the platform's answer, the others by what they wait for |
| ApplicationPages.ContainsExactly | storage/application_query.go:121-127 | the text search finds exactly the parts that occur somewhere |
| ApplicationPages.SelectedExactly | storage/application_query.go:112-127 | an entry is selected exactly when every criterion given holds of it |
| ApplicationPages.OrderTold | storage/application_query.go:140-155 | by employer or title if asked for, then the latest first unless the earliest is asked for, then by id |
| ApplicationPages.BeforeIsStrictTotal | storage/application_query.go:140-155 | the comparator is irreflexive, transitive and, for distinct ids, total, for every sort |
| ApplicationPages.OrderIsUnique | storage/application_query.go:140-155 | any sort by it gives the same list |
| ApplicationPages.SortedInOrder | storage/application_query.go:140-155 | sorting entries with distinct ids puts them in that order |
| ApplicationPages.CountEntry | storage/application_query.go:128-134 | an entry is counted in exactly the groups it belongs to |
| ApplicationPages.SelectApplicationPage | storage/application_query.go:107-162 | the page is cut from the sorted entries of the queried group; every counter holds the size of its group; the total is that group's counter |
| ApplicationPages.ListedExactly | storage/application_query.go:107-155 | a query lists exactly the selected entries of its group, each once, in order |
| ApplicationPages.PageTold | storage/application_query.go:156-161 | a page holds the ids at its places of the listing, as many as there are up to the limit, and the size of the whole listing |
| ApplicationPages.CountersAddUp | storage/application_query.go:70-134 | sent is the sum of the five disposition groups, everything the sum of the base groups |
| ApplicationPages.PagesCoverAll | storage/application_query.go:107-162 | the answers to successive page requests list the id of every entry of the queried group once, in order, and name the same total |
| Processors.Registry.Register | processor/text.go:54-66 | adds exactly new non-blank tags |
| Processors.Registry.Process | processor/text.go:68-110 | terminates for every registry and gives what the tag's unfolding means; its last step says what was run on what, whether it changed anything, and what it warned of |
| Processors.Registry.ProcessChain | processor/text.go:229-244 | the loop gives what the unfolded steps mean, one after another |
| Processors.EvaluateComposes | processor/text.go:68-110 | processing succeeds exactly when the flattened leaf processors compose, and gives their composition |
| Processors.StepsArePostOrder | processor/text.go:95-109 | one step per processor run, in post-order |
| Processors.StepsTold | processor/text.go:95-109 | every step says which processor of which kind made which text of which, and a step of a leaf is what the leaf does |
| Processors.WarningsKept | processor/text.go:229-244 | the warnings are those of the leaves, one after another |
| Processors.ExpandsExactly | processor/text.go:76-92 | a tag unfolds exactly when no way down its chains meets an unknown tag or a tag again |
| Conversations.Conversation.Observe | core/conversation.go:339-375 | the new record and outcome, as a function of the old |
| Conversations.ObserveTold | core/conversation.go:339-375 | field by field: the newest message gives its id and time, an incoming and a sent one count for their side, and nothing else changes |
| Conversations.Conversation.ObserveCatalogState | core/conversation.go:246-282 | the new record and outcome, as a function of the old |
| Conversations.CatalogTold | core/conversation.go:246-282 | field by field: the status is taken, and the unread count unless everything known of has been read |
| Conversations.Conversation.MarkRead | core/conversation.go:284-306 | the new record and outcome, as a function of the old |
| Conversations.ReadTold | core/conversation.go:284-306 | field by field: the count is cleared, and the time kept if there was something to read or nothing had been read before |
| Conversations.Conversation.ObservePresentation | core/conversation.go:200-240 | the new record and outcome, as a function of the old: blank details leave what is shown |
| Conversations.PresentationTold | core/conversation.go:200-240 | field by field: what is shown is overlaid, what is blank is left |
| Conversations.Conversation.SetStatus | core/conversation.go:377-397 | the new record and outcome, as a function of the old |
| Conversations.StatusTold | core/conversation.go:377-397 | field by field: the status alone |
| Conversations.ConversationStore.Append | storage/memory/conversation.go:303-345 | skips a message stored already, refuses another one under a stored id or external id, and otherwise stores it and observes it; the new contents and outcome, as a function of the old |
| Conversations.AppendTold | storage/memory/conversation.go:303-345 | a message is stored exactly if it is valid, in time and new under both ids; skipped exactly if it repeats the first stored one of its id or, without one, of its external id; and refused otherwise |
| Conversations.SamePayloadTold | storage/memory/conversation.go:549-578 | a repetition agrees in direction, status, content and external id, and in time to the millisecond |
| Conversations.ValidMessageTold | core/conversation.go:138-172 | a message is observed exactly if it came in |
| Conversations.NewIsNeverSkipped | storage/memory/conversation.go:303-345 | a message that is not stored is never taken for the last one observed |
| Conversations.NewArchiveIsKept | storage/memory/conversation.go:303-345 | a new conversation with an empty store meets what the store keeps from then on |
| Conversations.TimesAreMaxima | core/conversation.go:339-375 | over all events, messages arriving in any order, repeatedly or in conflict, the store holds each accepted message once and the three times of the record are the maxima over the messages stored |
| Conversations.ObserveFoldsExactly | core/conversation.go:339-375 | one observation keeps the times right exactly unless it is skipped as the last message although it would raise one |
| Conversations.SentUnderSameIdIsLost | core/conversation.go:339-375 | a limit of observation alone: a queued message sent under the same id would leave no outgoing time, and the store refuses it |
| Conversations.NothingGoesBack | core/conversation.go:200-397 | of all events, presentation and status included: revision, update time and read time never decrease, every change is one revision, no detail once shown is blanked and no message is lost |
| Conversations.UnreadMeansNewer | core/conversation.go:246-306 | after a read, unread messages mean something newer was observed, or reported by the catalog in an observation that was not refused |

## Left out

- JSON text: trees stand for texts, so encoding, number formats and the 256 KiB bound are not modelled.
- SHA-256: digests are injective constructors in the desired-state engine and function parameters elsewhere; where two fingerprints are compared, the absence of a collision between those two texts is an assumption of the lemma.
- Trees are values: `setJSONPointerValue` writes into maps in place, which is modelled as building the new tree, so aliasing is not captured.
- Strings are sequences of code points; the order of Go strings is that of valid UTF-8. Lower-casing is a parameter.
- Times of proposals and observations, and the processor and resume fields of the saga record, which no decision depends on.
- Task queues and leases around the workers.
- TailoringCoordinator.Coordinator.WriteField: the writer is modelled field by field from its interface contract; platform adapters are not part of this model. One of them sends whole documents merged with what it compared, so there an edit of any field of such a document made in between is lost.
- SubmitHandler.ApplicationHandler.Handle: pacing, vacancy loading, preflight, test capture and the activity record are calls elsewhere with arbitrary results; the pacing wait loop is not modelled. Ledger states follow the in-memory repository. Texts of reasons are arbitrary. A handler without a coordinator is not modelled, and nothing is claimed of the tailorings a call finds when its plan has none.
- TailoringSafety.SagaSafety: third parties may edit anything while no saga is under way and anything beside its paths while one is; what an edit at those paths does is the subject of TailoringRuns.ClobberingExactly.
- SubmitHandler.ApplicationHandler.Redelivered: a Skipped application found again runs neither the budget release nor the restore, so neither is claimed for it after a crash.
- TailoringCoordinator.Coordinator.FinishApply: that a platform drops a cleared field is no trouble but within its contract; the saga is then not stored as Applied, because the account does not read as tailored.
- Schedules.Scheduler.ReconcileDue: a stored definition that cannot be parsed ends the pass; definitions are taken to be valid.
- SubmitRuns.DailyLimitKept: applications imported as already submitted (worker/profile_state_import.go) carry no reservation and are outside the model.
- Liveness of the restore: the code does not promise it.
- Questionnaires.ValidateAnswerBlock: qualification descriptors and answer provenance enter as already judged.
- Schedules.KeptRun: cron evaluation is a function that answers with a later time; for an expression that never fires again the library answers with the zero time, and then no occurrence moves forward.
- Skills.ValidateDecisions: the tag, version, input digest and encoded override of a plan, which the processors set themselves.
- Processors.Registry.Process: leaf processors (replacement, templates) are functions from input to output; UTF-8 validity holds by construction.
- Follow-up transitions of conversations (core/conversation.go, from line 420 on).
- Platform clients, sidecar, credentials, configuration checks, key builders, prompts, removal and retention: plumbing, or members that follow from one reading.
