# HivePilot: a verified model of approvals, plans, plugins and grants

This project models the stateful cores of HivePilot (the `hivepilot/` package) in Dafny and proves what
their documentation and tests promise.

**The approval, checkpoint and side-effect protocol.** A tool call reserves a unique key, parks a
proposal, inserts a checkpoint, waits for a decision, wins a compare-and-swap, runs its effect, records
the result and marks the checkpoint resumed; each of these is one database commit. `Protocol` is that
protocol as a transition system: three tables, any number of calls with program counters and stale
local reads, a crash possible between any two commits. `ProtocolInvariant` states the inductive
invariant by rely and guarantee, `ProtocolSteps` proves that every step keeps it, `ProtocolRuns` draws
the theorems over all runs (`execute` is called at most once per key; it ran only for a proposal that
stood APPROVED beforehand and stands so for ever; orphans and abandoned claims never execute; a decided
proposal keeps its status for ever, and its payload unless `update_payload` names it; a recorded result is
what `execute` returned, is final, and every later resume answers with it), and `ProtocolRefinement` shows by
forward simulation that each event is one step of one once-cell per key, or a stutter. `Gateway` is the same code in its
imperative form, a `Store` object whose methods are the functions of `pass_store.py`, `side_effects.py` and
`checkpoints.py`. A ghost run, extended at each commit, proves that whatever its methods do is a run of the
protocol.

**Its clients.** `Memory` models memory proposals: an approved one is applied successfully at most once over
any retries, user writes and interruptions, and what is recorded of it is true exactly unless the approval was
cut short between applying and recording. `MemoryRuns` takes `decide_memory` apart into its commits, lets any
number of its calls overlap and stop anywhere, beside whatever the protocol above does to the proposals, and
says for every run how often a proposal was applied and which records are true. `Presenter` models the cards
that two surfaces share, with owner and expiry, and the one decision path behind them, whose owner check and
decision are two steps that other calls may come between. `BrowserGrant` models run-scoped browser grants,
which are asked for and approved through proposals and die with their run: every operation, staged edits
included, as a function on the tables that the methods of the store compute, and histories of them.

**The other cores.** `Partition` is the three-colour depth-first search that checks a plan's task graph (it
raises exactly on a cycle, the path it reports is a simple cycle of the graph, an accepted plan has a
topological order). `PluginStaging` and `PluginManager` are plugin staging with collision checks, the
per-plugin rollback, commit and hot reload, with what any history of reloads leaves live. `Evidence` is the
bounded packet builder with reference ingest and the claim gate. `Outward` is the outward permission with
nested scopes and the bounded suppression ledger, which all tasks share; `OutwardThreads` runs all tasks and
their threads interleaved step by step and shows that each still means what its scopes say. `PassStore` holds
the proposal rows and the edit rules, `Core` the shared values.

The main results, each a statement about every run, history, graph or program:

- `ProtocolRuns.AtMostOnce`, `TablesAgree`, `DecidedForever`, `RefusedNeverExecutes`,
  `LaterResumesReturnTheResult`, and `ProtocolRefinement.EveryEventIsACellStep`: the protocol, in every
  interleaving and after any crash.
- `Gateway.Store.Resume` and `OpenPendingTool`, with `Gateway.ResumeTwice`: the imperative form, each call a
  piece of such a run.
- `MemoryRuns.AppliedAtMostOnce`, `RecordTellsOfItsWriter` and `RecordForever`, with
  `Memory.MemoryService.RecordIsTrueUnlessInterrupted`: memory approvals, overlapping or one at a time; and
  `Memory.RejectedForGood` over any sequence of decisions.
- `Presenter.Desk.OneResumePerApproval`, `BrowserGrant.OneLiveGrantPerRun`, `DeadForever` and
  `TwoLiveReachableIff`: cards and browser grants.
- `Partition.AssertAcyclic` and `ValidateDag`: the task graph, both ways.
- `PluginManager.HistoryExact` and `HistoryIndependent`, `PluginStaging.GateOfThePass`,
  `ScanIsTheAdmittedOnes` and `RollbackRestores`: plugins.
- `Evidence.PacketDetermined` with `Evidence.EvidenceStore.BuildPacket`: the packing conditions fix the packet.
- `Outward.NothingEscapes`, `Outward.Run`, `OutwardThreads.EveryTaskMeansWhatItSays` and `WindowOfATask`:
  scopes and the ledger, for one task and for all of them at once.

Where the code and its own documentation disagree, the model follows the code:

- `_commit` is documented never to raise ("every collision was already resolved during staging"). It can,
  at a hook with an unknown phase, and at a graph source name held by another manager's object of the same
  local plugin file. The latter needs a spec class defined inside the plugin file: ordinary
  `GraphSourceSpec` objects all come from `hivepilot.graph`, and staging refuses those.
  `PluginManager.CommitCanRaiseAfterGoodStaging` gives the input, `PluginManager.Manager.Commit` states
  exactly when it raises and what every registry holds then: after a graph conflict the sources before the
  conflicting one are registered but nobody owns them, so they outlive every later reload that does not
  stage their name (`PluginManager.LeakedForever`; `PluginManager.ConflictLeaks` is such a run).
- A reload is documented to remove "never a builtin". A base entry that a plugin took over by registering
  the identical object again is lost when a later set no longer has it
  (`PluginManager.ReloadCanLoseABaseEntry`). `PluginManager.HistoryExact` says what any history of good,
  failed and raising reloads leaves live, and `PluginManager.HistoryIndependent` exactly when that is the
  base plus the last staged set.
- The rollback of a refused plugin is not exact when the plugin overwrote an entry with another object that
  names the same local plugin file: the overwritten entry is not put back. One scan loads no file stem
  twice, so this takes an installed module (an entry point or `plugins_entry`) that is itself called
  `hivepilot_plugin_<stem>`. `PluginStaging.RollbackRestores` is the exact condition,
  `PluginStaging.RollbackCanLoseAnEntry` a whole pass in which it happens.
- "A second surface calling the same approval id cannot start a second resume" holds of tool calls in
  every case. A memory approval can come back `resumed` twice, the second time from the record and without
  being applied again, in two ways: its card is presented again from a copy of the proposal that was read
  before the decision (`Presenter.StaleCopyResumesTwice`), or two decisions of its owner both pass the owner
  check before the first one drops the card (`Presenter.OverlappingDecisionsResumeTwice`).
  `Presenter.Desk.OneResumePerApproval` shows that there is no third way (a memory decision being one step
  after its check), `Presenter.Desk.Decide` exactly when it happens.
- The audit of a dispatched task is documented as what that task suppressed. The ledger is one for the whole
  process, so the denials of tasks that run at the same time are counted too
  (`OutwardThreads.AnotherTasksDenialIsCounted`). The counts are those of everything recorded between mark
  and summary, up to 512 events, and the task's own exactly when nobody else recorded there
  (`Outward.Dispatch`, `OutwardThreads.WindowOfATask`).
- A run is meant to have one live grant. But neither `run_id` nor the token in a payload is frozen, so a
  staged edit can point a second pending proposal at a run, be it one for another run or another tool's made
  to look like one for the browser; each then gets a live grant
  (`BrowserGrant.StagedEditMakesTwoLiveGrants`). `BrowserGrant.TwoLiveReachableIff`: two live grants of a run
  can be reached after an edit if and only if it is not `Harmless`, that is, it points a pending proposal at
  a run that has not ended and either the proposal cannot be seen to be for the browser, or it was not for
  that run before and the run is not idle.
- The record of a memory approval need not tell the truth. An approval interrupted between applying and
  recording is, when given again, refused as stale and recorded as not applied, for good
  (`Memory.MemoryService.RetryIsRecordedAsNotApplied`, `Memory.InterruptedApproval`). Two overlapping approvals
  can both miss the record, and the stale one then writes it last (`MemoryRuns.OverlapLosesTheRecord`,
  `MemoryRuns.RecordCanBeWrong`). A completed record says ok exactly if the call that wrote it last made the
  apply (`MemoryRuns.RecordTellsOfItsWriter`), and one at a time it is true of the proposal exactly if the
  approval that applied it was not interrupted (`Memory.MemoryService.RecordIsTrueUnlessInterrupted`). The
  corpus changes once in every case.
- `idempotency_key` is not frozen either: a proposal whose key was edited to another one's is reported as
  applied from that one's record, although it never was (`Memory.AnotherRecordAnswers`,
  `Memory.TrueReport` in the contract of `DecideMemory`).
- `null` is stored as a result but reads back as none, so `cached` and `result` of later resumes are
  those of an absent result (`ProtocolRuns.LaterResumesReturnTheResult`).

Fresh ids, the verdict of the approval rules, the capability policy, `execute`, redaction, the clock,
change-log ids (which grow) and the content checks of memory edits are parameters; theorems hold for all of them.

## Model

| member | source | states |
|---|---|---|
| ProtocolRuns.AtMostOnce | hivepilot/checkpoints.py:353-447 | In every reachable state of every interleaving with crashes, `execute` was called at most once per idempotency key |
| ProtocolRuns.TablesAgree | hivepilot/checkpoints.py:369-447 | In every reachable state: a completed effect has a checkpoint that is no longer open, a resumed checkpoint has a completed effect, an open one was never executed, and a completed result is absent exactly for a volatile tool |
| ProtocolRuns.OnePastTheClaim | hivepilot/checkpoints.py:300-313 | At most one call is ever past the compare-and-swap of a key |
| ProtocolRuns.ExecutedWhenApproved | hivepilot/checkpoints.py:392-434 | An event that executes is a claimed resume of that key, the first one, whose checkpoint's own proposal stands APPROVED at that moment |
| ProtocolRuns.ApprovedForever | hivepilot/checkpoints.py:392-436 | Once a key was executed, its checkpoint keeps its proposal and that proposal is APPROVED in every later state |
| ProtocolRuns.RefusedNeverExecutes | hivepilot/checkpoints.py:392-418 | A key whose proposal was rejected, expired or edited has never been executed and never will be |
| ProtocolRuns.DecidedForever | hivepilot/pass_store.py:356-443 | A proposal that left PENDING never changes its status, kind or action again, under any number of concurrent deciders with separate SELECT and UPDATE; nor its payload, unless `update_payload` replaces it |
| ProtocolRuns.CheckpointForever | hivepilot/checkpoints.py:270-297 | A checkpoint row never loses its id or its proposal |
| ProtocolRuns.OrphanForever | hivepilot/checkpoints.py:249-297 | A proposal whose creating call ended before a checkpoint used it is never used by one |
| ProtocolRuns.AbandonedForever | hivepilot/checkpoints.py:420-436 | A claim whose call crashed or raised is never taken over: checkpoint, execution count and completion stay as they are |
| ProtocolRuns.ResultForever | hivepilot/side_effects.py:217-239 | A recorded result is never overwritten by the protocol |
| ProtocolRuns.RecordedIsReturned | hivepilot/checkpoints.py:424-447 | What is recorded for a key is what `execute` returned (nothing for a volatile tool), and the resume that executed reports the same |
| ProtocolRuns.LaterResumesReturnTheResult | hivepilot/checkpoints.py:369-447 | From the event in which `execute` returned a value: every resume that begins after the key was completed finishes completed, not executed, and cached with that value; with nothing exactly for a volatile tool or `null` |
| ProtocolRuns.LaterResumesReadTheRow | hivepilot/side_effects.py:242-247 | The same of any completed key: the answer is the row's result, unless it is volatile, absent or `null` |
| ProtocolRuns.CallbackOnlyOnStoredStatus | hivepilot/pass_store.py:438-443 | `side_effect` only ever runs for a decision that is the stored status, and that status stays |
| ProtocolRuns.TargetsFrozen | hivepilot/pass_store.py:309-381 | Over every run of edits and decisions a stored payload agrees with the created one on presence and value of path, revision and expected_revision, unless `update_payload` replaced it |
| ProtocolRuns.OneResumePerApproval | hivepilot/presenters.py:325-346 | Whatever calls decide one approval id concurrently, at most one of them gets past the claim of its checkpoint, and then the approval stands APPROVED |
| ProtocolRuns.RunInv | hivepilot/checkpoints.py:222-466 | The invariant over the three tables and all calls' local reads holds in every state of every run |
| ProtocolRuns.NextKeeps | hivepilot/checkpoints.py:222-466 | Each event is the doing of one unfinished call, keeps the invariant, and leaves alone what other calls rely on |
| ProtocolRefinement.EveryEventIsACellStep | hivepilot/checkpoints.py:222-466 | Forward simulation: every commit of every run is one step of one once-cell (unopened, waiting, refused, taken, started, done) or a stutter of all |
| ProtocolRefinement.CellsOnlyMoveForward | hivepilot/checkpoints.py:353-447 | A cell's rank never falls over a run, and a done cell keeps its result |
| ProtocolSteps.StepKeeps | hivepilot/checkpoints.py:222-466 | One commit of any call keeps the table invariant, that call's own assertion, and the guarantee to the others |
| ProtocolSteps.ClaimKeeps | hivepilot/checkpoints.py:300-313 | The claim moves exactly one open row to resuming or nothing, and a lost claim changes nothing |
| ProtocolSteps.ClaimRowMeaning | hivepilot/checkpoints.py:300-313 | The conditional update by row id touches only the row of that key and reports one row exactly when it was open |
| ProtocolSteps.MarkRowMeaning | hivepilot/checkpoints.py:316-327 | The update to resumed touches only the row of that key |
| ProtocolSteps.DecideUpdateKeeps | hivepilot/pass_store.py:419-432 | The conditional update of `decide` and `stage_edit` keeps the invariant although its payload was read earlier |
| ProtocolSteps.RewriteKeeps | hivepilot/pass_store.py:356-381 | `update_payload`, a SELECT and then an UPDATE whatever the status, keeps the invariant and the guarantee; the UPDATE changes the payload of the proposal it names and nothing else |
| ProtocolInvariant.OthersStable | hivepilot/checkpoints.py:353-447 | Stale local reads: a step of one call never breaks what another call relies on at its program counter |
| Gateway.Store.ExecutedAtMostOnce | hivepilot/checkpoints.py:358 | In every state a store object can be in, a key was executed at most once |
| Gateway.Store.CreatePending | hivepilot/pass_store.py:239-285 | Inserts exactly one PENDING row under a new id, or fails on a taken id and changes nothing |
| Gateway.Store.Decide | hivepilot/pass_store.py:384-443 | Succeeds exactly on a PENDING row with a well-formed, non-retargeting request; writes that row only; a decided row is refused with its status |
| Gateway.Store.StageEdit | hivepilot/pass_store.py:309-353 | Merges the edit into a PENDING row and keeps it PENDING; refuses exactly the missing, decided or retargeting cases |
| Gateway.Store.ReserveOnce | hivepilot/checkpoints.py:251-255 | Reserves the key once, keeps an existing reservation, and refuses one of another tool |
| Gateway.Store.Bind | hivepilot/side_effects.py:191-214 | For a call that reserved its key: the row is there, gets proposal and checkpoint, and nothing else changes |
| Gateway.Store.Complete | hivepilot/side_effects.py:217-239 | For a call that holds the claim: the row is there and becomes completed with its result, none for a volatile tool |
| Gateway.Store.Submit | hivepilot/pass_store.py:508-582 | Any kind: the proposal is written PENDING first; an inadmissible skill evolution is then rejected whatever the rules say, otherwise it takes the status of a conclusive verdict; exactly a taken id fails and changes nothing |
| Gateway.Store.UpdatePayload | hivepilot/pass_store.py:356-381 | Replaces the payload of an existing proposal of any status and nothing else; fails exactly on a missing one |
| Gateway.Store.OpenPendingTool | hivepilot/checkpoints.py:222-297 | Reservation, proposal and checkpoint are persisted before any effect: the parked payload is the caller's with the tool's token as default, a new effect row has the token and volatility passed, the status is the rules' verdict; succeeds exactly when key and tool are not blank and the key is open already, or no other tool reserved it and no id is taken; reopening returns the checkpoint and changes nothing; a failure leaves no checkpoint |
| Gateway.Store.OpenReserved | hivepilot/checkpoints.py:257-297 | After the reservation: proposal, then checkpoint, then the binding of both to the effect row; succeeds exactly when neither id is taken |
| Gateway.Store.ClaimResume | hivepilot/checkpoints.py:300-313 | The compare-and-swap wins exactly when the row is open, and changes nothing otherwise |
| Gateway.Store.MarkResumed | hivepilot/checkpoints.py:316-327 | The claimed row becomes resumed and no other row changes |
| Gateway.Store.ReadForResume | hivepilot/checkpoints.py:361-418 | The three reads answer a resume without claiming in exactly the cases of the code, or find an approved open checkpoint |
| Gateway.Store.Resumable | hivepilot/checkpoints.py:361-418 | The answer that the reads give, told from the rows alone |
| Gateway.Store.ClaimAndRun | hivepilot/checkpoints.py:420-447 | A won claim executes once; success completes and resumes the row, an exception spends the claim |
| Gateway.Store.ResumeFrom | hivepilot/checkpoints.py:353-447 | Executes exactly when the checkpoint is open and its proposal APPROVED, for the first time for that key; otherwise only answers |
| Gateway.Store.Resume | hivepilot/checkpoints.py:353-447 | By key, with the blank key refused: a recorded result answers, none for a volatile tool or `null`; else a taken claim is reported; else pending, rejected and edited are reported exactly while the proposal stands so; only an approved one executes, for the first time, and what `execute` returned is recorded and reported |
| Gateway.Store.CompletedAnswers | hivepilot/checkpoints.py:372-382 | Once a result is recorded every further resume answers with the row's result, none for a volatile tool or `null`, and executes nothing |
| Gateway.ResumeTwice | hivepilot/checkpoints.py:353-447 | Two resumes in a row on the store: if the first executes, the second does not and answers with what `execute` returned to the first |
| Gateway.Store.SpentClaimAnswers | hivepilot/checkpoints.py:383-391 | Once executed without a recorded result, every further resume reports resuming and executes nothing |
| Gateway.Store.ApproveFirst | hivepilot/checkpoints.py:459-465 | A PENDING proposal is persisted APPROVED before the resume begins, any other is left alone |
| Gateway.Store.ApproveAndResume | hivepilot/checkpoints.py:450-466 | Executes only a never executed key with an open checkpoint whose proposal was PENDING or APPROVED, and does so in both cases unless `execute` raises; a waiting proposal is approved first, an approved one stays as it is |
| PassStore.MergedMeaning | hivepilot/pass_store.py:292-306 | An edit is refused exactly when it changes or adds a frozen target; an accepted one keeps targets, takes every other edited key and keeps the rest |
| PassStore.MergeEdit | hivepilot/pass_store.py:292-306 | The loop over edited keys computes that merge in any order of keys |
| PassStore.StagedMeaning | hivepilot/pass_store.py:292-353 | The same of a staged edit whoever signs it; a signed one names its actor |
| PassStore.DecidedRowMeaning | hivepilot/pass_store.py:400-433 | Exactly a PENDING row can be decided; it takes the status that was decided, keeps kind, action and targets, takes an edit's keys, and cannot be decided again |
| Memory.AppliedMeaning | hivepilot/memory_proposals.py:251-289 | A write succeeds only on the revision it names, moves that one slot by one, and touches no other; a refused write touches nothing |
| Memory.PayloadMeaning | hivepilot/memory_proposals.py:166-197 | Where a payload of any origin writes, and what: key before path, value before text, a new text before a text |
| Memory.BuiltPayloadApplies | hivepilot/memory_proposals.py:200-289 | A built payload writes to the slot and on the revision it was built for and never raises when applied, whatever extra fields the model sent |
| Memory.BuiltAsAsked | hivepilot/memory_proposals.py:200-248 | A payload is built exactly for a complete write, and it names the slot, revision, value and texts that were given, whatever extra fields the model sent |
| Memory.BuiltFor | hivepilot/memory_proposals.py:230-248 | It says who made it, shows the text, keeps the extra fields it has no use for, and takes none of its own from them |
| Memory.MemoryService.AppliedAtMostOnce | hivepilot/memory_proposals.py:401-493 | Over any sequence of proposals, edits, decisions, retries, interruptions and user writes an approved proposal is applied successfully at most once, and only while APPROVED |
| Memory.MemoryService.RecordIsTrueUnlessInterrupted | hivepilot/memory_proposals.py:401-432 | For a key that no other approved proposal names: the record reports ok if and only if the proposal was applied, exactly unless the call that applied it ended before recording |
| Memory.MemoryService.RecordsAreOfApplies | hivepilot/memory_proposals.py:401-432 | Every completed record is that of one approved proposal with that key, and an apply that was recorded is what its record reports |
| Memory.MemoryService.RetryIsRecordedAsNotApplied | hivepilot/memory_proposals.py:401-432 | Whenever an approval that was interrupted after the apply is given again, it is refused as stale, recorded as not applied, and the corpus stays |
| Memory.MemoryService.ProposeModelWrite | hivepilot/memory_proposals.py:200-384 | Succeeds exactly for a write that is not always-allowed and has a valid target, slot and content, under a new key and id; then there is one more PENDING proposal whose payload writes what was asked where it was asked, with a reservation bound to it; the corpus never changes |
| Memory.MemoryService.ApplyPayload | hivepilot/memory_proposals.py:251-289 | Changes the corpus as specified, or raises and changes nothing |
| Memory.MemoryService.UserWrite | hivepilot/memory_proposals.py:200-332 | Raises exactly over a foreign actor, an unknown target or a missing slot or content, and then changes nothing; otherwise exactly the given value or old and new text go to the given slot on the given revision; proposals and effects are left alone |
| Memory.MemoryService.Stage | hivepilot/pass_store.py:309-353 | Stages user text on a PENDING memory proposal, targets frozen |
| Memory.MemoryService.ApplyOnce | hivepilot/memory_proposals.py:419 | Applying again what was applied before, with no completed record, is refused as stale and leaves the corpus unchanged |
| Memory.MemoryService.ApplyApproved | hivepilot/memory_proposals.py:401-432 | A completed record answers and nothing happens; otherwise the payload is applied and the outcome recorded; interrupted in between it raises, the corpus and the count of applies are those of the apply, and no record is written; an unknown key raises the same way |
| Memory.MemoryService.DecideMemory | hivepilot/memory_proposals.py:435-493 | Rows, books and answer told from the arguments: a rejection leaves the proposal REJECTED and otherwise as it was, an edit leaves it PENDING with every edited key, an approval leaves it APPROVED with the staged text; no other row changes; only an approval touches corpus and records, after that; cut short before the apply it is persisted and nothing else; what is reported as applied was applied, by this call or by the one whose record answered |
| Memory.RejectedForGood | hivepilot/memory_proposals.py:435-493 | Over any sequence of decisions a rejected or expired proposal stays as it is and is never applied |
| Memory.DoneIsAnswered | hivepilot/memory_proposals.py:401-493 | What is done stays done and is answered from its record without touching anything; a waiting proposal that fits is applied |
| Memory.OnlyApprovalsApply | hivepilot/memory_proposals.py:435-493 | Reject and edit leave the books alone; a decided proposal is changed by no decision; an answer with an outcome is that of an APPROVED row |
| Memory.BooksGrow | hivepilot/memory_proposals.py:401-493 | No decision takes an apply or a completed record back, and one decision adds one apply at most |
| Memory.InterruptedApproval | hivepilot/memory_proposals.py:419-421 | A concrete run: propose, approve with an interruption after the apply, approve again; applied once, recorded and reported as not applied |
| Memory.AnotherRecordAnswers | hivepilot/memory_proposals.py:397-418 | A concrete run in which an edited key makes a never applied proposal come back as applied |
| MemoryRuns.AppliedAtMostOnce | hivepilot/memory_proposals.py:401-493 | In every state of every interleaving with crashes, beside any run of the approval protocol: an approved proposal was applied successfully at most once, unless `update_payload` replaced its payload |
| MemoryRuns.RecordTellsOfItsWriter | hivepilot/memory_proposals.py:401-432 | A completed record says ok exactly if the call that wrote it last made the apply; so it is true of the proposal exactly if no other call made it |
| MemoryRuns.RecordForever | hivepilot/memory_proposals.py:404-425 | Once a record is there and no call that missed it is on its way, it never changes |
| MemoryRuns.ReportsAreTrue | hivepilot/memory_proposals.py:404-432 | A call reports applied exactly if it, or the call whose record answered it, made the apply |
| MemoryRuns.OneReportsItsApply | hivepilot/memory_proposals.py:419-432 | At most one call reports that it applied the proposal itself |
| MemoryRuns.NextKeeps | hivepilot/memory_proposals.py:401-493 | Every event keeps the invariant over corpus, records and all calls' stale reads, and leaves alone what other calls rely on |
| MemoryRuns.StoppedBeforeTheRecord | hivepilot/memory_proposals.py:419-421 | From any state with a call about to apply: that call stops after it, and the next approval records and reports that nothing was applied |
| MemoryRuns.OverlapLosesTheRecord | hivepilot/memory_proposals.py:403-425 | From any state with two calls about to apply: nobody stops, one reports its apply, and the stale one overwrites the record |
| MemoryRuns.RecordCanBeWrong | hivepilot/memory_proposals.py:401-432 | Both are reached from the initial state |
| MemoryRuns.AloneItSettles | hivepilot/memory_proposals.py:401-432 | Without other calls in between, the commits of an approval amount to what `ApplyApproved` does |
| MemoryRuns.StoppedItSettles | hivepilot/memory_proposals.py:419-421 | A call that stops right after the apply leaves what an interrupted `ApplyApproved` leaves |
| Presenter.CallbackRoundTrip | hivepilot/presenters.py:189-213 | What a button sends reads back as the decision and the stripped id it was made from |
| Presenter.PendingConfirmations.Resolve | hivepilot/services/pending_confirmation.py:94-120 | True exactly for the owner of an unexpired card; an expired card is dropped, somebody else's is left alone |
| Presenter.Desk.OneResumePerApproval | hivepilot/presenters.py:349-431 | At most one decision per tool approval comes back resumed, only for an approval that stands APPROVED; the same for every memory approval that was not presented again from an outdated copy and whose completed decision no other decision overlapped |
| Presenter.Desk.Present | hivepilot/presenters.py:261-281 | Accepts exactly a PENDING copy from the owner of the card or when there is no unexpired one; never replaces an unexpired card; an up-to-date copy never revives a decided approval |
| Presenter.Desk.ResumeTool | hivepilot/presenters.py:325-346 | A denial leaves a waiting proposal REJECTED, an approval APPROVED, a decided one stays and no other row changes; it comes back resumed only by approval, only if its checkpoint was never claimed, and then it is claimed; a denial executes nothing |
| Presenter.Desk.DecideMemoryCard | hivepilot/presenters.py:382-397 | After the owner check, whatever came between: the decision that is stored and answered is the one that was made, and a denial writes nothing; an approval that came back resumed does so again exactly when its outcome is recorded under a key, and then the corpus is unchanged |
| Presenter.Desk.DecideToolCard | hivepilot/presenters.py:398-421 | For every kind that is not memory: the decision that is stored and answered is the one that was made, a decided proposal stays, a denial executes nothing; a resumed approval never comes back resumed again |
| Presenter.Desk.DecideApproval | hivepilot/presenters.py:349-431 | With nothing between check and decision: whoever does not own an unexpired card changes nothing; otherwise what is stored and answered is the decision that was made; a denial executes and writes nothing; the card goes when the approval is decided; exactly when a second `resumed` is reported |
| Presenter.Desk.CheckOwner | hivepilot/presenters.py:368-375 | Passes exactly the owner of an unexpired card, and then changes nothing |
| Presenter.Desk.Decide | hivepilot/presenters.py:376-431 | The decision of a call whose check passed at any earlier time: what is stored and answered is the decision that was made, on that row only; a denial executes and writes nothing; a resumed tool approval never comes back resumed again, a resumed memory approval does exactly when approved again with its outcome on record; a decision after the card was taken counts as overlapping |
| Presenter.Desk.OthersMoveOn | hivepilot/presenters.py:349-363 | Other calls on the stores in between keep the desk's invariant |
| Presenter.SpentForever | hivepilot/checkpoints.py:300-313 | A claimed approval stays claimed and APPROVED whatever happens later |
| Presenter.ResumeAgain | hivepilot/presenters.py:268-281 | Presenting a resumed memory approval again from an outdated copy makes it come back resumed once more without applying anything |
| Presenter.StaleCopyResumesTwice | hivepilot/presenters.py:268-281 | A concrete run in which one memory approval comes back resumed twice |
| Presenter.OverlappingDecisionsResumeTwice | hivepilot/presenters.py:373-397 | A concrete run without an outdated copy in which two decisions of one owner both come back resumed |
| BrowserGrant.OneLiveGrantPerRun | hivepilot/browser_grant.py:221-446 | Over any history of operations without a harmful edit, a run has at most one live grant, and it belongs to an APPROVED proposal of that run |
| BrowserGrant.DeadForever | hivepilot/browser_grant.py:221-446 | Over any history, harmful edits included, a dead grant stays dead, and an ended run without a live grant never gets one |
| BrowserGrant.TwoLiveReachableIff | hivepilot/pass_store.py:309-353 | From tables that keep the rule: two live grants of a run can be reached after a staged edit, without further edits, if and only if the edit is not harmless |
| BrowserGrant.EditedValidIff | hivepilot/pass_store.py:309-353 | A staged edit keeps the inductive rule exactly when it is harmless |
| BrowserGrant.StagedEditMakesTwoLiveGrants | hivepilot/browser_grant.py:257-311 | A run of the store in which a second run's proposal, or another tool's, is edited to the first run and that run gets two live grants |
| BrowserGrant.DoValid | hivepilot/browser_grant.py:221-446 | Every operation but a harmful edit keeps the rule |
| BrowserGrant.DoSound | hivepilot/browser_grant.py:221-446 | Every operation keeps grants tied to approved proposals, one each; no dead grant comes back, no approved proposal changes, and new grants are for open runs |
| BrowserGrant.PersistedValid | hivepilot/browser_grant.py:283-311 | A grant for an approved proposal of a run with nothing live and nothing pending keeps the rule |
| BrowserGrant.GrantStore.StartRun | hivepilot/services/state_service.py:1154-1156 | A new run is open; an existing one keeps its state |
| BrowserGrant.GrantStore.PersistLive | hivepilot/browser_grant.py:283-311 | One grant per approval: an existing live one is returned, a dead one is refused; without one, a payload without a run, a missing and an ended run raise, and any other run gets the new one |
| BrowserGrant.GrantStore.GetLive | hivepilot/browser_grant.py:221-243 | Nothing for a run that is not open; a live grant if there is one, changing nothing; otherwise the first approved proposal is materialized if it has no grant, and only then |
| BrowserGrant.GrantStore.MaterializeApproved | hivepilot/browser_grant.py:246-254 | The new grant is that of the first approved proposal of the run in inbox order; if that one has a grant, although dead, there is none |
| BrowserGrant.GrantStore.Request | hivepilot/browser_grant.py:323-378 | An ended run gets nothing; a live grant or a pending proposal is returned unchanged; otherwise one proposal is made and takes the rules' verdict |
| BrowserGrant.GrantStore.Approve | hivepilot/browser_grant.py:381-397 | Approving a pending proposal of an open run yields its live grant; an ended run never gets one |
| BrowserGrant.GrantStore.StageEdit | hivepilot/pass_store.py:309-353 | Edits the token and run of a pending proposal only, and keeps the rule exactly when that is harmless |
| BrowserGrant.GrantStore.RevokeForRun | hivepilot/browser_grant.py:400-446 | Ends exactly the live grants of the run and expires exactly its pending proposals; every other grant and proposal stays as it is |
| BrowserGrant.GrantStore.CompleteRun | hivepilot/services/state_service.py:1395-1404 | Ends the run and no other; other runs keep their grants and proposals; when the best-effort revocation fails this run's stay as well |
| Partition.ValidateDag | hivepilot/partition.py:318-339 | Accepts exactly the plans with distinct ids, declared dependencies and no cycle; each refusal names its offender; an accepted plan has an order listing every task once, dependencies first |
| Partition.AssertAcyclic | hivepilot/partition.py:342-365 | Raises exactly when the graph has a cycle, and then with a simple cycle of it; otherwise the blackening order is topological |
| Partition.CycleSearch.Visit | hivepilot/partition.py:350-361 | Grey nodes are the stack, consecutive stack entries are edges, black nodes are ordered and closed; terminates on any graph |
| Partition.OrderedIsAcyclic | hivepilot/partition.py:342-365 | A graph with a topological order has no closed walk |
| Partition.StackCycle | hivepilot/partition.py:355-357 | The stack from the grey node on, closed by it, is a simple cycle |
| Partition.FindRepeated | hivepilot/partition.py:320-328 | Finds exactly the ids that occur more than once |
| Partition.FindUnknown | hivepilot/partition.py:330-336 | Finds the first task with undeclared dependencies and names them all |
| Partition.GraphOfTasks | hivepilot/partition.py:338 | The dependency dictionary has exactly the declared nodes and edges when ids are distinct |
| Partition.OrderOfTasks | hivepilot/partition.py:338-365 | In an order of the graph every task comes after its dependencies |
| PluginStaging.StageAllMeaning | hivepilot/plugins.py:994-1031 | Staging a plugin adds exactly its slots, each with its last object |
| PluginStaging.StagedOverTakenSlot | hivepilot/plugins.py:909-956 | Past the collision check of a taken slot comes only the identical object or one of the same local plugin file |
| PluginStaging.StageMeaning | hivepilot/plugins.py:909-1031 | Exactly when a contribution may be staged: over what is staged or live and foreign only the identical object or one of the same local plugin file, elsewhere nothing at all, with a valid role; and what it is refused as |
| PluginStaging.StageAllIff | hivepilot/plugins.py:1396-1519 | A plugin goes through staging exactly when each contribution may be staged on top of those before it |
| PluginStaging.RollbackRestores | hivepilot/plugins.py:1364-1394 | The rollback of a plugin refused by the capability gate restores the staged state if and only if the plugin overwrote nothing |
| PluginStaging.DistinctOriginsRestore | hivepilot/plugins.py:1397-1409 | With distinct local stems the rollback always restores |
| PluginStaging.RollbackCanLoseAnEntry | hivepilot/plugins.py:1364-1409 | A whole pass of two plugins, the second refused, after which the first one's slot holds the second one's object |
| PluginStaging.RefusedPluginLeavesNoTrace | hivepilot/plugins.py:1590-1620 | A refused plugin changes nothing but the denied list, exactly when it overwrote nothing |
| PluginStaging.GateMeaning | hivepilot/plugin_capabilities.py:135-186 | The gate admits exactly the plugins that declare nothing or only tokens in the vocabulary and the policy, and names exactly the tokens outside the policy |
| PluginStaging.DirectorySkillsAddOnly | hivepilot/plugins.py:1696-1732 | Directory skills never replace a plugin's entry |
| PluginStaging.StagingArea.StageContributions | hivepilot/plugins.py:1396-1519 | The in-place staging loop agrees with the specification, and the noted slots are exactly the added ones |
| PluginStaging.StagingArea.Rollback | hivepilot/plugins.py:1364-1394 | Takes out exactly the noted slots |
| PluginStaging.StagingArea.RegisterPlugin | hivepilot/plugins.py:1396-1642 | A plugin that declares nothing, or only known tokens that the operator allows, is loaded with its hooks; any other one is denied with the tokens that are not allowed, or as invalid, and its slots are taken back; a collision stops the pass |
| PluginStaging.LoadInto | hivepilot/plugins.py:1226-1732 | A pass that goes through loads exactly the plugins that may load, with their hooks, denies the others with the reasons, in order, and adds each directory skill that no plugin contributes; it agrees with the specification that the pass theorems are about, and live entries are untouched |
| PluginStaging.GateOfThePass | hivepilot/plugins.py:1545-1620 | Whoever is loaded may load, and whoever may load is loaded, in a pass that goes through |
| PluginStaging.PassIsTheAdmittedOnes | hivepilot/plugins.py:1396-1642 | With distinct origins, a registration of candidates that goes through amounts to registering the admitted ones alone, plus the list of the refused ones in order, on top of anything staged that is apart from them |
| PluginStaging.ScanIsTheAdmittedOnes | hivepilot/plugins.py:1226-1732 | A whole scan that goes through amounts, with distinct origins, to scanning the admitted plugins alone, plus the list of the refused ones in order |
| PluginManager.OrderHooksIsAStableSort | hivepilot/plugins.py:117-135 | Ordering keeps every hook, puts phases in order, and keeps the order within a phase |
| PluginManager.CommitReplaces | hivepilot/plugins.py:1151-1200 | One commit turns base plus the old set into base plus the new set exactly when taken-over base entries are taken over again |
| PluginManager.HistoryExact | hivepilot/plugins.py:1069-1200 | After any history of good, failed and raising reloads the live registries are exactly the base entries never taken, the leaked graph sources and the manager's own entries, and what it owns is known |
| PluginManager.HistoryIndependent | hivepilot/plugins.py:1069-1200 | For any history: live is the base plus the last staged set if and only if every base entry ever taken is staged again (or leaked) and no leaked graph source differs from the base |
| PluginManager.QuietHistory | hivepilot/plugins.py:1069-1200 | Without a graph conflict, unknown hook phases included: live is the untaken base plus the last staged set, and history independent exactly when the taken base entries are staged again |
| PluginManager.ReloadCanLoseABaseEntry | hivepilot/plugins.py:1151-1200 | Two good passes after which a base entry is gone |
| PluginManager.LeakedForever | hivepilot/plugins.py:1188-1192 | A leaked graph source outlives every sequence of later reloads that do not stage its name |
| PluginManager.ConflictLeaks | hivepilot/plugins.py:1069-1200 | A concrete run: a pass that stages two sources raises at the second, and after a reload to the empty set the first is still registered and unowned |
| PluginManager.AttemptOfMeaning | hivepilot/plugins.py:1188-1192 | After a conflict the registered sources are held by nobody else and some staged source is not registered |
| PluginManager.CommitCanRaiseAfterGoodStaging | hivepilot/plugins.py:1151-1156 | An input on which the commit raises although staging succeeded: a spec of a class that the plugin file itself defines, under a name that another manager's object of that file holds |
| PluginManager.NoForeignLocalPluginNoGraphConflict | hivepilot/plugins.py:1497-1519 | When no other manager's local plugin objects stand in the way, staging finds every graph conflict |
| PluginManager.Manager.RegisterGraphSources | hivepilot/plugins.py:1190-1191 | In the order of the dictionary: raises exactly when a staged name is held by another object, and then has registered exactly the specs before the first such name |
| PluginManager.Manager.Commit | hivepilot/plugins.py:1151-1224 | Raises exactly on a graph conflict or an unknown phase. Without a conflict exactly what the manager owned is replaced in every registry; after one the first three registries are replaced, exactly the graph sources before the conflict are registered and unowned, and the manager's other fields stay |
| PluginManager.Manager.CommitInTwoParts | hivepilot/plugins.py:1161-1192 | Tearing down and adding registry by registry amounts to one replacement |
| PluginManager.Manager.Reload | hivepilot/plugins.py:1069-1143 | A failed staging and a reentrant call leave everything untouched; a success or a raise is one attempt of the history, whose effect on all registries and on ownership is stated; live stays that of the history |
| PluginManager.Manager.LiveAfterReloads | hivepilot/plugins.py:1069-1200 | The history theorems hold of the registries of any manager after any sequence of its reloads |
| Evidence.IngestKeeps | hivepilot/evidence.py:352-378 | An upsert with a new watermark keeps the store's invariant |
| Evidence.EvidenceStore.Ingest | hivepilot/evidence.py:315-381 | Redacts before storing, flags a change by redaction, keeps the first-seen watermark, moves the last-seen one, touches one row of one tenant |
| Evidence.EvidenceStore.BuildPacket | hivepilot/evidence.py:384-449 | The loop builds a packet that meets every packing condition |
| Evidence.PacketDetermined | hivepilot/evidence.py:400-449 | The packing conditions fix the packet: prefix selection in input order, snippet lengths, budget, caps, watermark, status |
| Evidence.EveryIdExactlyOnce | hivepilot/evidence.py:404-426 | Every non-blank id occurrence is in exactly one of selected, omitted and missing |
| Evidence.OwnTenantOnly | hivepilot/evidence.py:287-299 | A packet holds references of its own tenant only |
| Evidence.TenantsApart | hivepilot/evidence.py:167-169 | What is stored for one tenant is seen by another exactly when their stripped names are the same (a blank one being the default) |
| Evidence.ClaimRefIds | hivepilot/evidence.py:172-201 | Collects exactly the mentions, stripped and not blank, of the top level and the claims, each once, in order of first citation |
| Evidence.FirstOccurrencesMeaning | hivepilot/evidence.py:180-201 | Same elements, none twice, ordered by where they first occur |
| Evidence.EvidenceStore.AssessEvolutionClaim | hivepilot/evidence.py:452-481 | Admissible exactly when something is mentioned and every mention that is not blank has a row under the tenant's own name; missing ids listed in order |
| Outward.RestrictedTo | hivepilot/outward.py:149-157 | Permits exactly the named actions of the vocabulary |
| Outward.NarrowIsTheMeet | hivepilot/outward.py:168-183 | Narrowing is the greatest permission below both; commutative and idempotent up to what it allows |
| Outward.NarrowAssociates | hivepilot/outward.py:168-183 | Narrowing is associative to the letter, labels included |
| Outward.AllowedIffAllAllow | hivepilot/outward.py:159-223 | Inside any nesting an action is allowed exactly when it is in the vocabulary and every enclosing permission allows it |
| Outward.LabelIsTheInnermost | hivepilot/outward.py:168-183 | A denial carries the label of the innermost labelled restriction around it |
| Outward.NothingEscapes | hivepilot/outward.py:209-246 | Whatever runs inside scopes, nested or on adopting threads, is allowed no more than the scopes around it allow |
| Outward.DetachedEscapes | hivepilot/outward.py:226-241 | A thread that does not adopt is not restricted |
| Outward.AskPermits | hivepilot/outward.py:327-340 | Answers by the enclosing scopes and records exactly the denials, whatever other tasks record meanwhile |
| Outward.Run | hivepilot/outward.py:209-246 | With the context variable and its tokens a program does what the scopes mean, every exit, exceptional ones included, restores the permission, and the task's records are its denials in order, whatever other tasks record in between |
| Outward.Dispatch | hivepilot/services/partition_service.py:1863-1915 | Counts everything recorded by anyone between mark and summary, the last 512 events of it; this task's part of it are exactly its denials; the counts are the task's own if and only if nobody else recorded in it |
| Outward.CountsAreOwnIff | hivepilot/outward.py:318-324 | Counts of a stretch of the ledger are those of one task exactly when nobody else recorded in it |
| OutwardThreads.EveryTaskMeansWhatItSays | hivepilot/outward.py:209-246 | In every interleaving of all tasks and all their threads: a task that ended has its permission back, raised as its program means, and was given exactly the answers its scopes mean; its records are its denials |
| OutwardThreads.WindowOfATask | hivepilot/services/partition_service.py:1863-1915 | In every interleaving: the task's records between mark and end are its denials, and the counts of that window are its own exactly when no other task recorded in it |
| OutwardThreads.AnotherTasksDenialIsCounted | hivepilot/services/partition_service.py:1607-1625 | Two tasks of one chunk: the first is denied nothing and its window counts the other's denial |
| OutwardThreads.StepKeeps | hivepilot/outward.py:209-246 | One step of any thread gives the answer it has to and leaves the rest of the task's meaning to do |
| Outward.Ledger.Record | hivepilot/outward.py:283-303 | Numbers are consecutive and the log holds the last 512 events |
| Outward.Ledger.SuppressionsSince | hivepilot/outward.py:313-315 | For a past mark, exactly the recorded suffix, the last 512 of it |
| Outward.Ledger.SummariseSuppressions | hivepilot/outward.py:318-324 | Counts per action, whose sum is the number of events still held |

## Left out

- SQL text, isolation levels, table creation, `db.connect`, timestamps, row order of equal timestamps, uuid generation and logging: a table is a map with unique keys, one statement is one atomic step, fresh ids are parameters and a taken one is an error.
- Checkpoint kinds: there is only `pending_tool`, so the test for another kind is not modelled.
- JSON encoding of payloads and results: values are opaque, except that `null` is told apart because it reads back as none.
- Progress after a crash: a checkpoint left in `resuming` is never executed again; the code gives at most once, not exactly once.
- `side_effect` at most once under concurrent identical decisions: `decide` does not look at the row count of its update, so the code does not give it; what is proved is that it runs only for the stored status.
- `update_payload` may replace the payload of a proposal of any status: the theorems about frozen targets and about payloads of decided proposals leave out the proposals it names, and no others. Which payload `skill_evolution_accept.py` passes to it is not part of this model.
- The `side_effect` callback of `submit`: it is the one of `decide`, covered by `ProtocolRuns.CallbackOnlyOnStoredStatus`; admissibility and verdict are parameters of `Gateway.Store.Submit`.
- The proposal table is one table in the program; `Memory` and `Presenter` hold its memory proposals in the memory service and the rest in the store, with ids assumed unique across both, and effect rows of memory writes apart from those of tool calls.
- `IsolatedJsonMemory.put` and `apply_workspace_text_edit` are not part of this model beyond their revision rule: they succeed only on the expected revision and then add one; JSON validity, unique match and size limits are the `Editor` parameter. One such call is one step: interleavings inside it are not modelled.
- `match_auto`, the tool catalog and the approval rules: their verdict is a parameter.
- Loss of the memory corpus when the process restarts: the corpus lives as long as the service object.
- Interleavings inside one decision at the desk: there a memory decision is one step after its owner check, and so is a tool decision. Commit by commit they are covered in `MemoryRuns` and `ProtocolRuns.OneResumePerApproval`.
- `MemoryRuns`: the theorems leave out proposals that `update_payload` named, as a new payload can name a new revision.
- Keys in memory payloads are taken as stripped and not made of blanks only.
- The card's title, summary, doors, Telegram keyboard and Pollen payload; `present_pending`.
- Browser actions, CDP URLs and their loopback check (a flag), the id, creation and revocation times of grants, and the count `revoke_for_run` returns. Proposals that another caller creates with a browser token and a run, `update_payload` calls that change either, and staged edits of `cdp_url`, which can only keep a grant from being made, are assumed absent.
- Field validators of the partition models, the sorting of names in error messages, and Python's recursion limit on very deep graphs.
- Plugin discovery, file execution, entry points, health and panel calls, network-capability sets, hook ownership and the directory snapshot. The seven staged dictionaries are one map keyed by registry and name; registry values are never None.
- Two managers that own one kind on purpose: nothing is claimed about disjoint ownership across managers, and `PluginManager.Manager.LiveAfterReloads` is about registries that nobody else changes between the reloads.
- Redaction patterns, metadata shape checks and tenant listing in `evidence.py`; redaction is a pair of function parameters.
- `Outward.Run` runs the workers of its own task one after another, with other tasks recording in between; workers that overlap are covered by `OutwardThreads`, whose answers are compared as multisets since their order is the scheduler's.
- The 512-event cap in `OutwardThreads.WindowOfATask`: it is about everything recorded, the cap is in `Outward.Dispatch`.
- A thread that outlives the program which started it: a program waits for the threads it starts.
