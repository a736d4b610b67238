# Verified model of Radhouse's browser ownership and data paths

Radhouse lets an assistant and its owner share one isolated browser. This project models, in Dafny 4.11, the code that
decides who may act on that browser, and the loops that carry the owner's data, and proves what that code is for.

* **Who holds the browser.** `ControlModel`, `BrowserController`, `ControlProofs`, `ControlEffects`, `ControlLedger`,
  `InputRetries`, `TakeoverFence`, `HumanInput` and `Observation` model the durable ownership controller: modes,
  leases, revisions, the one command slot, the input sequence with its retained receipt, observation epochs,
  retirement, restart and lazy lease expiry. A store is a map of rows; a call is one transaction that commits what the
  transition function says or, when it is rejected, nothing. Clock readings, the maintenance hold and fresh
  identifiers are inputs of each call (`Env`).
* **What reaches the page.** `StreamingModel`, `StreamingControl`, `StreamingProofs`, `StreamingEffects`,
  `StreamingRounds` and `StreamingCancellation` compose that controller with the streaming input boundary. Every
  stretch of code between two awaits is one atomic step; arbitrary outside controller calls, expiry with them, and the
  cancellation of whoever awaits come between any two. A ghost log remembers under which lease each token was granted,
  every accepted input, and each revocation, drain and admission.
* **The native channel.** `NativeChannelModel`, `NativeControlChannel`, `NativeChannelProofs`, `NativeAnswers` and
  `NativeRounds`: one worker, a queue of one, fences, compound gestures and a poison path that may strike anywhere,
  over a wire trace.
* **One browser at a time.** `LaunchModel`, `BrowserWorker`, `LaunchProofs` and `LaunchCycles`: the launch protocol
  between worker and client over a channel that loses and delays requests and replies.
* **The release journal.** `ReleaseModel`, `ReleaseOperation`, `ReleaseProofs` and `ReleaseRuns`: apply and verify
  runs as persisted steps with a crash possible between any two.
* **Data-carrying loops.** The owner terminal's ring and cursors (`TerminalModel`, `OwnerTerminal`, `TerminalProofs`,
  `TerminalRounds`), staged uploads (`UploadModel`, `BrowserUploads`, `UploadProofs`), the download outbox and its
  collector (`DownloadModel`, `BrowserDownloads`, `DownloadProofs`, `DownloadCollection`), what each of their requests
  does (`TransferRounds`), the host's receipts for collected files (`DownloadReceipts`), the frame traversal of the
  privacy check (`FrameTraversal`, `StaleFrames`) and the PNG chunk reader and stripper (`PngChunks`).

Each object that updates its fields is a class whose methods do so step by step. A method's `ensures` equates the
object's new state with a transition function of the model applied to the old one. What those functions mean is proved
beside them: safety over every finite run, and, in the files on effects, cycles and rounds, exactly when each
operation succeeds, what it leaves in terms of the data alone, and what a run without a refusal achieves from its
first step to its last. `dafny verify dfyconfig.toml` checks everything.

Some stronger claims one might expect are false of the code, and the model keeps the code: a paused row may hold a
command, a recovering one may hold none, admission compares only with the immediately preceding run, the streaming
boundary compares lease owners and looks at its blocked flag only before it waits, a cancelled handback leaves the
boundary open although it did not drain, the worker forgets retired launches, a gesture answered with success is
uncertain if the answer comes from a replaced browser, and a frame that the browser describes in two different ways
may be checked in only one of them.

## Model

| member | source | states |
|---|---|---|
| BrowserControllers.BrowserController.BindBrowser | runtime/hermes/browser_control.py:316-379 | binding: a fresh row, the same row again, or a new generation only over a positively retired one, at a higher revision; any rejection leaves every row as it was, also its lazy expiry |
| BrowserControllers.BrowserController.AdmitRun | runtime/hermes/browser_control.py:424-480 | admission from human, agent or paused mode; from paused only with a handover proof of this owner, generation and revision; compares with the immediately preceding run only |
| BrowserControllers.BrowserController.ReserveAgent | runtime/hermes/browser_control.py:482-495 | the one command slot goes to the admitted run in agent mode, or nothing changes |
| BrowserControllers.BrowserController.CompleteAgent | runtime/hermes/browser_control.py:497-510 | only the admitted run completes the command in the slot; an applied one empties the slot without leaving recovery, so the row is the one from before its reservation (AgentCommandsComeAndGo); an uncertain one enters recovery and keeps the command |
| BrowserControllers.BrowserController.RequestTakeover | runtime/hermes/browser_control.py:522-545 | a takeover opens one lease that names the current revision, or repeats the answer for the identical request |
| BrowserControllers.BrowserController.ConfirmTakeover | runtime/hermes/browser_control.py:547-561 | human mode begins only on a quiescent fence behind the command noted by the request |
| BrowserControllers.BrowserController.ReserveInput | runtime/hermes/browser_control.py:567-588 | the next sequence under the current lease and revision is handed out once; the latest one is only repeated |
| BrowserControllers.BrowserController.CompleteInput | runtime/hermes/browser_control.py:590-615 | an outcome is recorded once, a differing later one is a conflict, an uncertain one takes the lease away |
| BrowserControllers.BrowserController.Heartbeat | runtime/hermes/browser_control.py:617-648 | renewal of exactly the current lease, never past the authentication's expiry |
| BrowserControllers.BrowserController.ObservationMode | runtime/hermes/browser_control.py:650-665 | every change between private and observe is a new revision and a new epoch |
| BrowserControllers.BrowserController.AuthorizeObservation | runtime/hermes/browser_control.py:667-679 | succeeds only for the current lease, in observe mode, at the granted epoch |
| BrowserControllers.BrowserController.BeginReturn | runtime/hermes/browser_control.py:681-689 | handback takes the lease before anything else happens and keeps a command outstanding |
| BrowserControllers.BrowserController.Presence | runtime/hermes/browser_control.py:691-705 | answers only agent or paused rows at the current revision and changes nothing |
| BrowserControllers.BrowserController.BeginClose | runtime/hermes/browser_control.py:707-739 | closing pauses an idle row whose last run is proven to have ended |
| BrowserControllers.BrowserController.Pause | runtime/hermes/browser_control.py:750-759 | only the lease's owner pauses |
| BrowserControllers.BrowserController.RecoverStartup | runtime/hermes/browser_control.py:761-793 | restart, row by row: any command outstanding means recovery with its receipt uncertain, live authority is paused, retired rows stay |
| BrowserControllers.BrowserController.RetireBrowser | runtime/hermes/browser_control.py:795-827 | only a proof that process and channel are gone empties and freezes the row |
| ControlProofs.CallAdvances | runtime/hermes/browser_control.py:295-827 | every call, by anyone, keeps every row consistent (a lease exactly in takeover-pending or human mode, the command slot owned by whoever holds the browser, an outstanding human command matching the receipt, retired rows emptied, lease expiry within authentication expiry, one live row per session), never lowers a revision, and changes authority only with the revision |
| ControlProofs.EveryHistoryIsConsistent | runtime/hermes/browser_control.py:295-827 | all of that holds after every history of calls |
| ControlProofs.RevisionIsAFence | runtime/hermes/browser_control.py:316-379 | over every history, across expiry, restart, retirement and rebinding: the revision never decreases, and equal revisions mean equal generation, mode, lease, observation mode and epoch, admitted run and retirement |
| ControlProofs.EqualRevisionsBracketOneAuthority | runtime/hermes/browser_control.py:295-302 | two moments with equal revision enclose no other authority in between |
| ControlProofs.RetiredRowsAreFrozen | runtime/hermes/browser_control.py:795-827 | a retired row is the same after every history without a bind of its conversation |
| ControlProofs.UncertaintySticks | runtime/hermes/browser_control.py:497-510 | each way an outcome can stay unknown (uncertain agent or human outcome, expiry or restart with a command outstanding) enters recovery |
| ControlProofs.PausingKeepsTheCommand | runtime/hermes/browser_control.py:681-689 | pausing takes the lease and nothing else: a paused row may still hold its command |
| ControlProofs.LateCompletionsStayRecovering | runtime/hermes/browser_control.py:497-510 | a late completion may empty the slot of a recovering row, and frees nothing else |
| ControlProofs.UncertaintyIsSticky | runtime/hermes/browser_control.py:590-615 | once in recovery, after any history without a positive retirement no reservation, takeover, confirmation, renewal or admission succeeds for the conversation, and no other generation can be bound |
| ControlLedger.EveryHistoryIsSound | runtime/hermes/browser_control.py:567-615 | the ledger of leases and executed commands, kept beside the store, agrees with it after every history with fresh identifiers |
| ControlLedger.ReservationIsNextOrRepeat | runtime/hermes/browser_control.py:567-588 | a reservation either executes exactly the next sequence of its lease or repeats the latest command's outcome without executing |
| ControlLedger.ExecutionsAreGapless | runtime/hermes/browser_control.py:567-588 | over every history the sequences executed under a lease are consecutive, without gap or repetition |
| ControlLedger.ExecutionsCountFromOne | runtime/hermes/browser_control.py:567-588 | from the empty store on the sequences executed under any lease are 1, 2, 3 and so on |
| ControlLedger.RetryReturnsTheRecordedOutcome | runtime/hermes/browser_control.py:590-615 | directly after a positive completion the same reservation succeeds, with the recorded outcome and without executing; after an uncertain one it is refused |
| InputRetries.RetriesAreToldTheOutcome | runtime/hermes/browser_control.py:567-615 | after a positive completion, whatever history follows, a reservation of that lease and sequence that is answered at all is told that command and outcome, is not executed and changes nothing |
| InputRetries.UncertainInputsAreNotRetried | runtime/hermes/browser_control.py:590-615 | after an uncertain completion, whatever history follows, no reservation under that lease succeeds |
| ControlLedger.OpeningNamesItsRevision | runtime/hermes/browser_control.py:522-545 | a revision that once opened a lease is never the current one again when another lease opens |
| ControlLedger.ClosedRequestsNeverReopen | runtime/hermes/browser_control.py:522-545 | one revision opens at most one lease: at any later time a takeover naming it is rejected or answered with that very lease |
| HumanInputs.Gestures.HumanInput | runtime/hermes/bridge.py:1561-1620 | a gesture is submitted exactly when its reservation says execute and validation let it out; an answer is recorded as it is, rejected is recorded only for a native rejection or a gesture that was never sent, and a gesture that failed after it was sent leaves the row recovering, without lease, its command outstanding and its receipt uncertain |
| HumanInputs.GesturesAreSubmittedOnce | runtime/hermes/bridge.py:1561-1606 | across any controller calls, retries and lost replies no (lease, sequence) is submitted twice |
| HumanInputs.EveryGestureIsSubmittedOnce | runtime/hermes/bridge.py:1561-1620 | the same from the empty store on, for every history of calls and gestures |
| Observation.GoneLeasesStayGone | runtime/hermes/browser_control.py:522-545 | a lease that is gone never comes back |
| Observation.GrantsHaveNoWayBack | runtime/hermes/browser_control.py:650-679 | an observe grant that stands at two moments stood at every moment between: private and back, losing and regaining control, and expiry all change lease or epoch |
| Observation.CapturesAreCoveredThroughout | runtime/selkies/platform.py:411-422 | a page capture reaches the observer only if the grant stood continuously from before the read to after it |
| StreamingControls.StreamingControl.Authorize | runtime/selkies/control.py:159-170 | compares token, generation, mode, lease owner (not lease id) and that no command is outstanding |
| StreamingControls.StreamingControl.Dispatch | runtime/selkies/control.py:172-232 | an event queued under a token is accepted only if that token is authorized once the input lock is free |
| StreamingControls.StreamingControl.SendClipboard | runtime/selkies/control.py:219-226 | a clipboard read inside an accepted event is authorized again before it is sent |
| StreamingControls.StreamingControl.RepeatKey | runtime/selkies/control.py:140-157 | the synchronous key-repeat path runs only while nobody holds the input lock |
| StreamingControls.StreamingControl.Take | runtime/selkies/control.py:238-252 | takeover, with the blocked flag looked at only before waiting for the lock |
| StreamingControls.StreamingControl.Move | runtime/selkies/control.py:254-284 | moving control pauses the old owner before the old token is withdrawn |
| StreamingControls.StreamingControl.Grant | runtime/selkies/control.py:286-290 | a standing token is withdrawn and published away before a grant goes on |
| StreamingControls.StreamingControl.ConfirmTakeover | runtime/selkies/control.py:300-304 | confirmation, new token and its owner change together |
| StreamingControls.StreamingControl.AnnounceGrant | runtime/selkies/control.py:305-312 | a token that could not be announced is withdrawn again, its lease paused and the boundary blocked |
| StreamingControls.StreamingControl.SettleTakeover | runtime/selkies/control.py:314-319 | a pending takeover is granted once no command is outstanding |
| StreamingControls.StreamingControl.EndDrain | runtime/selkies/control.py:321-353 | a failed drain blocks the boundary, a finished one continues what it was for |
| StreamingControls.StreamingControl.RevokeForReturn | runtime/selkies/control.py:365-371 | only a clear page lets the handback revoke the lease, durably and before it withdraws the token; otherwise, or if the lease is gone, both locks are given back and nothing else changes |
| StreamingControls.StreamingControl.ObserveReply | runtime/selkies/control.py:372-387 | a failed observation after the drain blocks the boundary |
| StreamingControls.StreamingControl.ResumeReply | runtime/selkies/control.py:372-387 | the handover becomes available only when the browser resumed; a failure blocks the boundary |
| StreamingControls.StreamingControl.Reconcile | runtime/selkies/control.py:389-403 | an unauthorized token is withdrawn, pausing its owner first when the row is still human |
| StreamingControls.StreamingControl.Disconnect | runtime/selkies/control.py:405-423 | a disconnected controller's lease is paused before its token is withdrawn |
| StreamingControls.StreamingControl.AdmitFollowUp | runtime/hermes/bridge.py:1763-1784 | a follow-up run is admitted from paused with the boundary's handover, which is then used up |
| StreamingControls.StreamingControl.Cancel | runtime/selkies/control.py:355-387 | a cancelled transition gives both locks back and leaves token, owner and blocked flag alone, because its handlers catch failures only |
| StreamingCancellation.HandbackEndings | runtime/selkies/control.py:372-387 | a step that ends a handback between its revocation and its handover blocks the boundary if and only if it is an answered failure; otherwise it is the handover or a cancellation |
| StreamingCancellation.WithdrawalEndings | runtime/selkies/control.py:276-298 | whatever a token was withdrawn for (move, grant, reconciliation, disconnection, handback), leaving the withdrawal blocks the boundary if and only if publishing or draining answered a failure, or a move was then refused its lease |
| StreamingCancellation.GrantEndings | runtime/selkies/control.py:299-312 | a grant that ends blocks the boundary if and only if its announcement failed or it belonged to a move and failed, and not when it is cancelled |
| StreamingCancellation.CancelledHandbacksReopen | runtime/selkies/control.py:355-387 | a handback cancelled after its revocation leaves the boundary open: from any standing human control, the run of handback, cancellation and the next takeover accepts input again with no drain in between |
| StreamingProofs.AuthorizedMeetsItsLease | runtime/selkies/control.py:159-170 | although only owners are compared, an authorized token meets exactly the lease it was granted under |
| StreamingProofs.EveryInterleavingIsSafe | runtime/selkies/control.py:159-423 | the joint invariant of boundary and controller holds in every interleaving of take, settle, move, grant, handback, reconcile, disconnect, dispatch, clipboard, key repeat, admission, cancellation at any await, lease expiry and arbitrary outside controller calls |
| StreamingProofs.InputIsAcceptedOnlyUnderItsLease | runtime/selkies/control.py:172-232 | in every interleaving, each input dispatched or repeated and each clipboard sent was accepted in human mode, with no command outstanding, while the very lease its token was granted under was the current one |
| StreamingProofs.HandoversAreBacked | runtime/selkies/control.py:355-387 | whenever a run was admitted on a handover: the lease had been revoked, then the input boundary drained, no lease existed and no input was accepted from the revocation to the admission, and nothing accepted before finished after the drain |
| StreamingProofs.AdmissionIsBacked | runtime/hermes/bridge.py:1763-1784 | the admission itself presents the handover of the standing revision |
| StreamingProofs.BlockedForever | runtime/selkies/control.py:321-353 | once blocked, whatever happens, no input is ever accepted again |
| StreamingProofs.FailedHandbackClosesTheBoundary | runtime/selkies/control.py:372-387 | every failure answered between revocation and handover blocks the boundary, and no input is accepted ever after |
| StreamingProofs.OldTokensNeverAuthorize | runtime/selkies/control.py:159-170 | a token that is no longer current never becomes current again, and events queued under it are dropped |
| NativeControlChannels.NativeControlChannel.Submit | runtime/hermes/native_control.py:346-370 | an id is accepted once, only while the channel is open and its single slot free |
| NativeControlChannels.NativeControlChannel.FenceAfter | runtime/hermes/native_control.py:315-344 | a fence is accepted only when nothing is pending and its predecessor is the last completed command with a completed acknowledgement, or there never was one |
| NativeControlChannels.NativeControlChannel.ProbeStatus | runtime/hermes/native_control.py:303-313 | a probe is a fence behind whatever completed last |
| NativeControlChannels.NativeControlChannel.SendFrame | runtime/hermes/native_control.py:398-425 | a frame is sent only on an open channel and only after the previous one was answered |
| NativeControlChannels.NativeControlChannel.ReceiveAck | runtime/hermes/native_control.py:398-425 | a matching answer moves to the next frame, ends the command with the acknowledgement its last answer decides (LastAnswersResolve), or, if the browser changed, poisons the channel as completed but unknown |
| NativeControlChannels.NativeControlChannel.CompleteJob | runtime/hermes/native_control.py:427-457 | the future is resolved, the command leaves the pending set and becomes the last completed one |
| NativeControlChannels.NativeControlChannel.Poison | runtime/hermes/native_control.py:459-477 | every pending command is resolved: gestures as uncertain, everything else with an error; at any point of the worker |
| NativeControlChannels.NativeControlChannel.Close | runtime/hermes/native_control.py:479-485 | closing poisons what is pending and wakes the worker |
| NativeControlChannels.NativeControlChannel.ReadLine | runtime/hermes/native_control.py:372-392 | a line is exactly the bytes before the first newline, however the socket cuts them; the buffer never exceeds the frame limit plus one; the connection counts as lost only at the end of what the peer sent or of what the socket delivers |
| NativeControlChannels.FramingIsUnique | runtime/hermes/native_control.py:372-392 | the lines read from a byte stream are determined by the bytes alone |
| NativeChannelProofs.EveryInterleavingIsSound | runtime/hermes/native_control.py:303-485 | the invariant of queue, pending set, worker and wire holds in every interleaving of submitters, worker, close and poison |
| NativeChannelProofs.FencesFollowTheirPredecessor | runtime/hermes/native_control.py:315-344 | a quiescent fence acknowledgement for p means that on the wire the fence directly follows p's last frame and its matched answer; for no predecessor, that no command had ever completed before it |
| NativeChannelProofs.EveryFutureResolvesOnce | runtime/hermes/native_control.py:346-485 | every submitted command's future is resolved exactly once, whatever the order of completion, close, loss and poison; closing resolves all |
| NativeChannelProofs.FailedStepsStopTheGesture | runtime/hermes/native_control.py:398-425 | no frame of a gesture is sent unless the one directly before it was answered with success |
| NativeChannelProofs.SettledForever | runtime/hermes/native_control.py:346-485 | submitted jobs, resolutions and the wire never change, and a closed channel accepts nothing more |
| NativeChannelProofs.SubmittedOnceAndForAll | runtime/hermes/native_control.py:346-370 | at every later time, submitting an id again, or anything after close, as a command, a fence or a probe, changes nothing |
| BrowserWorkers.Worker.Start | runtime/selkies/network_worker.py:166-245 | a launch is reserved before anything is spawned; a repeated start of a live id is answered, any other is rejected; a failed start either reaps everything or retains the launch |
| BrowserWorkers.Worker.Stop | runtime/selkies/network_worker.py:247-281 | retired is answered only after every child was reaped; the record keeps the last 128 launches |
| BrowserWorkers.Worker.Status | runtime/selkies/network_worker.py:317-335 | a browser found dead is reaped before it is reported retired |
| BrowserWorkers.LaunchClient.Launch | runtime/selkies/platform.py:117-163 | a launch begins only when none is owned or the owned one is retired; a request never sent owns nothing |
| BrowserWorkers.LaunchClient.StartAnswered | runtime/selkies/network_client.py:125-161 | only a positive rejection releases a launch; an unclear answer keeps it |
| BrowserWorkers.LaunchClient.Answered | runtime/selkies/network_client.py:163-200 | only a positive retirement answer for the owned id marks it retired |
| BrowserWorkers.LaunchClient.Retire | runtime/selkies/platform.py:165-175 | the handle is forgotten only once retired |
| LaunchProofs.WorkerKeepsLaw | runtime/selkies/network_worker.py:166-281 | every request and every death leaves at most one live browser and the record equal to the elements of its queue, at most 128 |
| LaunchProofs.ForgottenLaunchesCouldRestart | runtime/selkies/network_worker.py:276-279 | an idle worker refuses a retired id exactly while it remembers it, and a full record forgets: a second start of the oldest id would run again |
| LaunchProofs.NeverTwoBrowsers | runtime/selkies/platform.py:79-174 | with requests and replies lost or delayed arbitrarily and one start per id: at most one live browser, owned by the client, and no new launch while anything earlier is alive or can still start |
| LaunchProofs.RetiredMeansReaped | runtime/selkies/network_client.py:163-200 | the client says retired only after the worker reaped that very id |
| ReleaseOperations.Release.Begin | scripts/release.py:742-755 | integrity stop, undiagnosed retries and exhausted attempts are refused before anything is written; an apply of a verified release becomes a verify |
| ReleaseOperations.Release.CountAttempt | scripts/release.py:784-790 | the attempt is counted durably before anything can be stopped |
| ReleaseOperations.Release.Preflight | scripts/release.py:791-792 | active owner work ends the attempt as a diagnosed, retryable failure |
| ReleaseOperations.Release.StopService | scripts/release.py:808-810 | the service is stopped only behind a counted attempt and a staged release |
| ReleaseOperations.Release.TakeInventory | scripts/release.py:812-818 | a recorded baseline is compared, never replaced |
| ReleaseOperations.Release.TakeSnapshot | scripts/release.py:821-821 | the snapshot is stored under its own attempt's number |
| ReleaseOperations.Release.CheckBracket | scripts/release.py:822-824 | a snapshot counts only if the inventory after it equals the one before |
| ReleaseOperations.Release.Publish | scripts/release.py:825-826 | the unit file is switched |
| ReleaseOperations.Release.CheckSnapshot | scripts/release.py:833-841 | the retained snapshot of the last attempt must still match the journal |
| ReleaseOperations.Release.Confirm | scripts/release.py:842-848 | before a release is first called verified the owner's data must equal the baseline |
| ReleaseOperations.Release.Fail | scripts/release.py:854-863 | a failure is journalled as retryable or as an integrity stop |
| ReleaseProofs.ActKeepsSound | scripts/release.py:756-863 | every step, failure, crash and owner write keeps the invariant of journal, unit, snapshots and history |
| ReleaseProofs.StopsAreBounded | scripts/release.py:754-810 | over any apply and verify runs with a crash at any step the service is stopped at most max_attempts times, and at most three |
| ReleaseProofs.SwitchesAreBracketed | scripts/release.py:812-826 | the unit is switched only after, in the same attempt, a snapshot bracketed by equal inventories that are the recorded baseline |
| ReleaseProofs.VerifiedMeansRetained | scripts/release.py:842-848 | the journal says verified only if a verification found the owner's data equal to the recorded baseline |
| ReleaseProofs.BaselineIsNeverRetaken | scripts/release.py:814-818 | the baseline in the journal is recorded once and is the same after every later run |
| ReleaseProofs.IntegrityStopIsFinal | scripts/release.py:744-746 | after an integrity stop no run changes journal, unit, snapshots or service |
| ReleaseProofs.UndiagnosedFailuresFreeze | scripts/release.py:854-863 | so an undiagnosed failure at any point freezes the release |
| OwnerTerminals.Shell.Reattach | runtime/hermes/owner_terminal.py:266-274 | a new request or owner is a new attach epoch; repeating the same open is not |
| OwnerTerminals.Shell.Drain | runtime/hermes/owner_terminal.py:198-229 | what is read is appended, the ring stays the last bytes of all output, and a read that ends after close is dropped |
| OwnerTerminals.Shell.Finish | runtime/hermes/owner_terminal.py:188-196 | closing keeps the cursor and empties the ring, unless the cleanup fails or is cancelled |
| OwnerTerminals.Shell.CheckInput | runtime/hermes/owner_terminal.py:340-355 | only the next sequence, decodable and within the chunk limit, on an open shell |
| OwnerTerminals.Shell.StartWrite | runtime/hermes/owner_terminal.py:355-357 | the sequence is used up and its outcome uncertain before the first byte is written |
| OwnerTerminals.Shell.EndWrite | runtime/hermes/owner_terminal.py:357-362 | only a confirmed write changes the outcome |
| OwnerTerminals.Shell.Ask | runtime/hermes/owner_terminal.py:370-374 | a poll beyond the output is rejected |
| OwnerTerminals.Shell.Answer | runtime/hermes/owner_terminal.py:380-388 | a poll gets the output from its cursor, or from the oldest byte kept, and is told so exactly when more than the ring's length is missing |
| TerminalProofs.RingIsASuffix | runtime/hermes/owner_terminal.py:212-223 | in every run the ring is a suffix of the whole output, of length at most RING_BYTES, and until close as long as possible |
| TerminalProofs.ClientsReceiveTheOutput | runtime/hermes/owner_terminal.py:370-388 | in every interleaving a client polling with the returned cursor gets consecutive stretches of the real output in order; filling exactly the flagged gaps gives the output back, and its bytes are all of it if and only if nothing was flagged |
| TerminalProofs.InputsAreWrittenOnce | runtime/hermes/owner_terminal.py:340-362 | every input sequence is written at most once, in order from 1 |
| TerminalProofs.ReattachmentFencesOldEpochs | runtime/hermes/owner_terminal.py:231-235 | after an open by another request or owner no poll, also none already waiting, and no input of an earlier epoch is answered or written |
| BrowserUploads.Files.OpenChooser | runtime/selkies/browser_files.py:197-199 | a new chooser replaces the pending one under a fresh id |
| BrowserUploads.Files.DropChooser | runtime/selkies/browser_files.py:189-196 | navigation or detachment of its page withdraws the chooser |
| BrowserUploads.Files.Begin | runtime/selkies/browser_files.py:278-291 | a staged upload is declared once, for the pending chooser at its destination |
| BrowserUploads.Files.Write | runtime/selkies/browser_files.py:314-330 | a chunk appends at the end or repeats what is there; anything else is rejected |
| BrowserUploads.Files.StartCommit | runtime/selkies/browser_files.py:298-300 | commit begins for the pending chooser at the declared destination |
| BrowserUploads.Files.FinishCommit | runtime/selkies/browser_files.py:301-312 | size and digest are verified and the chooser consumed before the effect |
| UploadProofs.AcceptedChunksStay | runtime/selkies/browser_files.py:314-330 | under any retries, reordering, overlaps and failing writes an accepted chunk's bytes stay at its offset forever and no file outgrows its declared size |
| UploadProofs.RetriesAreHarmless | runtime/selkies/browser_files.py:314-330 | sending an accepted chunk again, at any later time, is accepted and changes nothing |
| UploadProofs.ChoosersAreUsedOnce | runtime/selkies/browser_files.py:298-312 | no chooser ever receives two files |
| UploadProofs.DeliveredFilesAreTheSource | runtime/selkies/browser_files.py:301-312 | a file that reached a chooser is, then and ever after, exactly the file whose digest was declared, if the digest has no collisions |
| BrowserUploads.SendChunks | runtime/hermes/browser_files.py:137-146 | the chunk loop ends, and on success the staged file is the service's answers one after the other, each the bounded chunk asked for under the announced size and digest; it succeeds whenever the service serves so and the disk stores |
| BrowserUploads.AgentUpload | runtime/hermes/browser_files.py:116-159 | success means the staged file has the announced size and digest and was handed to the one chooser it was begun for; any failure but an unconfirmed one hands over nothing; and it succeeds whenever the chooser stays at its destination, the service serves the original and nothing is refused |
| BrowserUploads.ServedFilesAreTheOriginal | runtime/hermes/bridge.py:135-158 | bounded answers of a service that serves one original add up to that original |
| BrowserDownloads.Downloads.WillBegin | runtime/selkies/browser_files.py:200-210 | a download is recorded once, hidden if downloads are hidden now |
| BrowserDownloads.Downloads.StartComplete | runtime/selkies/browser_files.py:219-229 | a pending download's stored file is measured |
| BrowserDownloads.Downloads.FinishComplete | runtime/selkies/browser_files.py:235-236 | what was measured is recorded |
| BrowserDownloads.Downloads.Cancel | runtime/selkies/browser_files.py:215-217 | only a pending download is cancelled |
| BrowserDownloads.Downloads.Visibility | runtime/selkies/browser_files.py:238-244 | hiding also hides every pending download |
| BrowserDownloads.Downloads.Ack | runtime/selkies/browser_files.py:332-342 | saved only against the recorded digest, and removed only after that is committed |
| BrowserDownloads.Downloads.Read | runtime/selkies/browser_files.py:343-351 | a bounded chunk of a completed file of the recorded size |
| BrowserDownloads.Downloads.RecoverDownloads | runtime/selkies/browser_files.py:365-382 | afterwards nothing is pending: a final file is a complete download, the rest is cancelled, and only saved or cancelled files are removed |
| DownloadProofs.EveryRunMovesForward | runtime/selkies/browser_files.py:200-244 | rows only move pending to completed to saved, or pending to cancelled; what was recorded never changes and hidden never becomes shown |
| DownloadProofs.CompletedFilesAwaitTheirAck | runtime/selkies/browser_files.py:332-342 | a completed file keeps its bytes through every run, including a crash between the update and the removal, unless someone acknowledged its recorded digest |
| DownloadProofs.HiddenDownloadsStayHidden | runtime/selkies/browser_files.py:238-244 | from the event by which the owner hides on, a download that was pending or begins before the owner shows again is hidden then and ever after |
| BrowserDownloads.Download | src/radhouse/chat/browser_files.py:97-115 | from an outbox that stands still, chunked reads from offset 0 reassemble the stored file exactly, and do so whenever it is listed as it is recorded |
| BrowserDownloads.Receive | src/radhouse/chat/browser_files.py:83-129 | wherever it stops, the bytes are afterwards in the outbox, in the library or in both; success means an exact copy, a hidden download is hidden in the library, and a download listed as it is recorded succeeds if its file could be removed |
| DownloadCollection.ReadsAddUp | src/radhouse/chat/browser_files.py:97-115 | chunks read at successive moments, with any outbox events, crashes and recovery in between, are consecutive bytes of the file listed as complete, and once they have its size they are that file |
| DownloadCollection.NothingIsLost | src/radhouse/chat/browser_files.py:83-129 | with a collector that acknowledges only after its commit, a download once complete is at every later moment in the outbox or in the library with its exact bytes, between commit, acknowledgement and removal too and whichever side crashed; and what the outbox hid the library hides |
| DownloadReceipts.Receipts.NoteItem | runtime/hermes/browser_files.py:71-80 | a listed file gets a receipt once, and later only its hidden flag can be set |
| DownloadReceipts.Receipts.Collect | runtime/hermes/browser_files.py:60-80 | every file of a listing is noted, in order, under the hands the browser was in |
| DownloadReceipts.HiddenOnceHidden | runtime/hermes/browser_files.py:68-80 | over any listings a file has a receipt exactly if it was listed, and is hidden exactly if some listing was made out of the owner's sight or claimed it private: it never becomes visible again |
| DownloadReceipts.FirstSightingPins | runtime/hermes/browser_files.py:73-77 | producer and run of a file are those of its first listing, whatever later listings say |
| FrameTraversal.JoinByParent | runtime/selkies/sandbox.py:252-260 | out-of-process frames are grouped by the parent they name, rejecting a tree that is not its frame's own |
| FrameTraversal.SensitiveClear | runtime/selkies/sandbox.py:230-280 | the worklist terminates, also on cyclic parent links, and answers what the traversal's definition says; each of its steps goes exactly where the page leads (SuccessorsAreWhereItLeads) |
| FrameTraversal.ClearCoversEveryFrame | runtime/selkies/sandbox.py:261-280 | with reachability defined on the page alone, through every child in a tree, every child that an out-of-process frame's own target answers and every frame that names its parent: clear means that each such frame was checked, through its own target or the one it was found through, and found clear, and that there are at most 64, if the browser describes each frame consistently |
| FrameTraversal.OtherAnswersHaveReasons | runtime/selkies/sandbox.py:261-280 | over the same reachability: false only for a sensitive reachable frame; no answer for targets that do not fit together, and otherwise only for a failed check, an unreadable frame or more than 64 frames |
| StaleFrames.InconsistentTreesCanHideAFrame | runtime/selkies/sandbox.py:249-279 | without that consistency coverage fails: a frame that went out of process between the reading of the page's tree and of its own has a sensitive child that is never checked, and the page is found clear |
| PngChunks.ScanChunks | scripts/public_privacy.py:25-45 | the reading loop ends and yields what its definition says, for whatever is read at each offset |
| PngChunks.ReadChunks | scripts/public_privacy.py:25-45 | accepts exactly what the chunk grammar accepts |
| PngChunks.ReadingInvertsWriting | scripts/public_privacy.py:25-45 | a file is accepted with a list of chunks if and only if it is the signature followed by those chunks, each well formed (section 3.2 of RFC 2083) and only the last one IEND |
| PngChunks.StripPngText | scripts/public_privacy.py:131-136 | the stripped file is accepted again and reads as exactly the non-textual chunks, in order |
| PngChunks.StrippingIsIdempotent | scripts/public_privacy.py:131-136 | no textual chunk is left, every other one is kept as often as before, and stripping again gives the same bytes |
| BrowserControllers.BrowserController.State | runtime/hermes/browser_control.py:381-383 | a read commits at most the lazy expiry |
| BrowserControllers.BrowserController.RecordPage | runtime/hermes/browser_control.py:404-422 | bounded page context replaces the stored one without a new revision, and a retired row records none |
| StreamingControls.StreamingControl.EndDispatch | runtime/selkies/control.py:228-232 | an accepted event ends by freeing the input lock |
| StreamingControls.StreamingControl.PublishReply | runtime/selkies/control.py:286-298 | a revocation that could not be announced blocks the boundary |
| StreamingControls.StreamingControl.BeginDrain | runtime/selkies/control.py:321-328 | a drain begins only once the input lock is free |
| StreamingControls.StreamingControl.FenceReply | runtime/selkies/control.py:299-300 | without a fence a takeover is given up, and a move blocks the boundary |
| StreamingControls.StreamingControl.Handback | runtime/selkies/control.py:355-358 | a handback waits for the transition lock |
| StreamingControls.StreamingControl.LockReturn | runtime/selkies/control.py:359-364 | under the input lock only the current lease and revision may be handed back |
| NativeControlChannels.NativeControlChannel.TakeJob | runtime/hermes/native_control.py:427-440 | the worker takes the queued command or stops |
| NativeControlChannels.NativeControlChannel.BeginJob | runtime/hermes/native_control.py:427-440 | a command taken after the channel closed is not begun |
| NativeControlChannels.ResolvePending | runtime/hermes/native_control.py:459-477 | the poison loop resolves each pending future that is still open, once |
| ReleaseOperations.Release.Inspect | scripts/release.py:756-784 | a verify run needs a recorded baseline, a snapshot and the candidate unit |
| ReleaseOperations.Release.Stage | scripts/release.py:793-807 | the staged release is journalled before anything is stopped |
| ReleaseOperations.Release.SaveStopped | scripts/release.py:811-811 | the stop is journalled |
| ReleaseOperations.Release.SavePublished | scripts/release.py:827-827 | the switch is journalled before the start |
| ReleaseOperations.Release.StartCandidate | scripts/release.py:828-830 | the start is journalled |
| OwnerTerminals.Shell.Expire | runtime/hermes/owner_terminal.py:202-206 | a shell is finished when its authentication expired or its owner stayed away too long |
| OwnerTerminals.Shell.Close | runtime/hermes/owner_terminal.py:367-369 | only the current binding closes a shell |
| BrowserUploads.Files.Cancel | runtime/selkies/browser_files.py:274-277 | only the named chooser is withdrawn |
| BrowserDownloads.Downloads.RecoverOne | runtime/selkies/browser_files.py:371-377 | a pending download with a readable final file is complete, any other cancelled |
| BrowserDownloads.Downloads.Sweep | runtime/selkies/browser_files.py:378-382 | only saved or cancelled files are removed |
| ReleaseOperations.Release.Crash | scripts/release.py:854-863 | a crash, or an interruption the handler does not catch, loses only what was not journalled |
| ReleaseOperations.Release.Report | scripts/release.py:849-853 | a verified run ends by reporting |
| OwnerTerminals.AnswerIsExact | runtime/hermes/owner_terminal.py:380-388 | until close an answer is exactly the output from the cursor or the oldest byte kept, up to the chunk limit, flagged if and only if more than the ring is missing |
| BrowserUploads.Files.AbandonCommit | runtime/selkies/browser_files.py:298-308 | a commit that fails or is cancelled before its effect leaves chooser and file as they were |
| BrowserDownloads.Downloads.AbandonComplete | runtime/selkies/browser_files.py:219-236 | a completion that could not be recorded leaves the download pending |
| ControlEffects.LeasesEndAtTheirExpiry | runtime/hermes/browser_control.py:285-291 | a row is read as it stands until its lease runs out; from then on the lease is gone at a new revision, and the row is paused, or recovering if an input of the owner was outstanding |
| ControlEffects.ReadingFirstChangesNothing | runtime/hermes/browser_control.py:274-291 | every call finds the row as a read at the same moment would have left it, and fails if that read does |
| ControlEffects.OtherGenerationsAreRefused | runtime/hermes/browser_control.py:274-283 | no call touches a browser nobody bound or another generation of it |
| ControlEffects.MaintenanceOnlyLetsWorkEnd | runtime/hermes/browser_control.py:256-264 | a maintenance hold, or not knowing, refuses every call but the seven that read or end work, and those do not depend on it |
| ControlEffects.RunsFollowOneAnother | runtime/hermes/browser_control.py:424-480 | a run is admitted if and only if the owner's lease, the free agent or a proven handover of this very revision authorizes it, nothing is outstanding and the run before it is proven over and is another one; the row it leaves |
| ControlEffects.AgentCommandsComeAndGo | runtime/hermes/browser_control.py:482-510 | a reserved and positively completed agent command leaves the row as it was before, and the next command of the run can then be reserved |
| ControlEffects.TheSlotBelongsToTheRun | runtime/hermes/browser_control.py:482-510 | the slot is given exactly to the admitted run in agent mode while it is empty, and only that command's own completion is accepted; an uncertain one keeps it in a recovering row |
| ControlEffects.RequestsOpenOneLease | runtime/hermes/browser_control.py:522-545 | a takeover opens a lease if and only if it names the current revision of a free agent or paused browser, valid for the lease term but not beyond the authentication, behind the command outstanding now; the identical request shows it again |
| ControlEffects.ConfirmationNeedsTheFence | runtime/hermes/browser_control.py:547-561 | a takeover is confirmed if and only if nothing is outstanding and this browser is observed quiescent behind the very command the row waits for |
| ControlEffects.InputsAreReservedInOrder | runtime/hermes/browser_control.py:567-588 | the holder's inputs are reserved if and only if each has the next number and the slot is empty, or repeats the latest; the answers of both, and why others are refused |
| ControlEffects.InputsComeAndGo | runtime/hermes/browser_control.py:567-615 | an input that was executed and then applied or rejected empties the slot and leaves only its number and receipt; the next number can then be reserved |
| ControlEffects.CompletionsMatchTheirInput | runtime/hermes/browser_control.py:590-615 | a completion is accepted if and only if it is the latest input's, while that is outstanding, or repeats its positive outcome; what applied, rejected and uncertain leave |
| ControlEffects.HeartbeatsExtendTheLease | runtime/hermes/browser_control.py:617-648 | the holder's heartbeat, and no other, moves the lease's end to one term from now but never past the authentication, which only a still valid renewal replaces |
| ControlEffects.ObservationFollowsTheGrant | runtime/hermes/browser_control.py:650-679 | the holder alone changes observation, each change a new epoch and revision; an observation is authorized if and only if it names the standing grant of the current epoch, and changes nothing |
| ControlEffects.ReturningPauses | runtime/hermes/browser_control.py:681-759 | the holder hands back, and the owner of the lease is paused, if and only if the lease is theirs; then the lease is gone at a new revision and nothing else changed |
| ControlEffects.ClosingNeedsAnIdleBrowser | runtime/hermes/browser_control.py:691-739 | a browser not under human control answers presence, and is closed if and only if it is idle and its run is proven over |
| ControlEffects.RetiringEmptiesTheRow | runtime/hermes/browser_control.py:795-827 | a generation is retired if and only if its own process and channel are proven gone; what is kept and what is emptied |
| ControlEffects.PagesAreReplaced | runtime/hermes/browser_control.py:404-422 | bounded page context replaces the old at the same revision, unless the row is retired |
| ControlEffects.GenerationsFollowOneAnother | runtime/hermes/browser_control.py:316-379 | a conversation is bound if and only if its session serves no other one and the generation before it, of the same owner, is retired, or it is the standing one again |
| ControlEffects.BindingFindsTheExpiredRow | runtime/hermes/browser_control.py:316-379 | a bind finds the row as a read at the same moment would have left it |
| ControlEffects.RestartsPauseEverything | runtime/hermes/browser_control.py:761-793 | what a restart makes of each kind of row |
| TakeoverFence.TakeoversAreFenced | runtime/hermes/browser_control.py:522-561 | over every history between request and confirmation: a lease's takeover is confirmed only by an observation of this browser as quiescent directly behind the command that was outstanding when the lease was requested |
| HumanInputs.EndingsAreRecorded | runtime/hermes/bridge.py:1588-1614 | how the ending of a submitted or unsubmitted gesture becomes its receipt, slot, lease and mode, also if the lease expires meanwhile |
| Observation.StandingGrantsAreObserved | runtime/selkies/platform.py:411-422 | conversely a capture is returned whenever the grant stands before the read and after it |
| StreamingEffects.RevocationsNeedAClearPage | runtime/selkies/control.py:359-371 | over every interleaving: each revocation of a handback is the very step that answered the privacy check with a clear page while the transition held the input lock |
| StreamingEffects.NoHandbackWithoutAClearPage | runtime/selkies/control.py:365-367 | in a run without a clear answer nothing is revoked for a handback and no run is admitted on one |
| StreamingEffects.AdmissionsHaveEveryAnswer | runtime/selkies/control.py:355-387 | every run admitted on a handover belongs to a handback whose steps each had their positive answer, in order and in place: clear page, publication, drain, observation, resumption |
| StreamingEffects.AdmissionsFollowAClearPage | runtime/selkies/control.py:365-387 | every admitted run is backed by a clear answer under the input lock that revoked the lease, with no lease and no accepted input since |
| StreamingEffects.UnclearPagesChangeNothing | runtime/selkies/control.py:365-367 | an unclear page ends the handback: locks are given back, and store, token, owner and blocked flag stay |
| StreamingRounds.ReturnsAreOffered | runtime/selkies/control.py:371-387 | a revoked handback with every further answer positive offers one handover of its own revision and forgets the former owner |
| StreamingRounds.RevokedTokensAreDrained | runtime/selkies/control.py:389-410 | a withdrawal that drains leaves an open boundary with nobody in control |
| StreamingRounds.EventsAreTheHolders | runtime/selkies/control.py:159-232 | an event is accepted if and only if its token is current, the boundary open, the browser alive, the standing lease its owner's, the slot empty and the input lock free |
| StreamingRounds.RepeatsAreTheHolders | runtime/selkies/control.py:145-157 | a key is repeated under exactly the same conditions |
| StreamingRounds.ClipboardsAreTheHolders | runtime/selkies/control.py:219-226 | a clipboard is sent if and only if its event is still authorized |
| StreamingRounds.LocksAreGivenBack | runtime/selkies/control.py:188-232 | dispatch and observers take and give back the input lock |
| StreamingRounds.TakeoversBeginOnAnEmptySlot | runtime/selkies/control.py:238-251 | a takeover begins its grant exactly on an empty slot, otherwise stays pending until it is settled; a token still out is withdrawn first |
| StreamingRounds.GrantsConfirmTheirFence | runtime/selkies/control.py:299-320 | a grant gives lease, owner and a fresh token if and only if its fence proves the pending takeover; a takeover without it ends, a move without it closes the boundary |
| StreamingRounds.GrantsAreAnnounced | runtime/selkies/control.py:299-312 | an announced grant stands; one that could not be announced takes token and lease back and closes the boundary |
| StreamingRounds.MovesTakeTheLeaseFirst | runtime/selkies/control.py:253-285 | control moves if and only if the same principal's other owner holds it at the revision named with an empty slot; the lease is taken back and the token withdrawn |
| StreamingRounds.StaleTokensAreWithdrawn | runtime/selkies/control.py:389-405 | reconciliation leaves the holder's token alone and withdraws any other, after taking back a lease that is still its owner's |
| StreamingRounds.ViewersThatLeaveLoseControl | runtime/selkies/control.py:407-424 | only the viewer with the token loses control by leaving, and its standing lease is taken back first |
| StreamingRounds.DrainsGoOn | runtime/selkies/control.py:286-312 | what each successful drain goes on to, and that a failed one closes the boundary |
| StreamingRounds.ReturnsCheckTheLease | runtime/selkies/control.py:355-364 | a handback reaches the privacy check if and only if the lease it names stands at the revision the owner saw |
| StreamingRounds.TransitionsWait | runtime/selkies/control.py:355-359 | handbacks and drains wait for their locks; a shutdown does not wait |
| StreamingRounds.HandoversAdmitTheNextRun | runtime/hermes/bridge.py:1763-1784 | the offered handover admits the owner's next run if and only if revision, owner, empty slot and the proven end of the run before agree, and is then used up; a refused admission changes nothing |
| StreamingCancellation.ReturnRevokes | runtime/selkies/control.py:365-371 | a clear page under the standing lease revokes it, withdraws the token and records the revocation |
| NativeAnswers.FuturesTellWhatTheWireShows | runtime/hermes/native_control.py:398-477 | over every interleaving a resolved future is its own job's, in its job's kind: answered to the end it says applied if and only if its last frame was answered with success by the same browser, and otherwise an answer of failure or of another browser is on the wire; errors count as completed only after such an answer |
| NativeAnswers.ReplacedBrowsersAnswerNothing | runtime/hermes/native_control.py:404-408 | so an answer of success alone does not mean applied: from a replaced browser it leaves the gesture uncertain |
| NativeRounds.CommandsAreTakenOnce | runtime/hermes/native_control.py:346-370 | a command is queued if and only if the channel is open, its queue empty and its identifier new |
| NativeRounds.FencesFollowTheLast | runtime/hermes/native_control.py:296-345 | a fence is ordered if and only if nothing is pending and it names the command completed last, which was answered to its end |
| NativeRounds.TheWorkerTakesTheQueue | runtime/hermes/native_control.py:427-440 | what the worker takes, begins and stops at |
| NativeRounds.GesturesGoOn | runtime/hermes/native_control.py:398-416 | a frame answered with success is followed by the next one, and nothing is resolved yet |
| NativeRounds.LastAnswersResolve | runtime/hermes/native_control.py:417-458 | the last frame's answer, or the first failure, resolves the future in the job's kind, a fence quiescent only if also connected, and completes the job |
| NativeRounds.BreakdownsResolveEverything | runtime/hermes/native_control.py:459-484 | closing, an unsent frame and a lost connection close the channel and resolve everything pending, gestures as uncertain, and nothing as completed |
| NativeRounds.ReplacedBrowsersBreakTheChannel | runtime/hermes/native_control.py:404-412 | an answer of another browser breaks the channel, and completes its own command alone |
| FrameTraversal.SuccessorsAreWhereItLeads | runtime/selkies/sandbox.py:272-279 | the walk goes from a frame exactly to its children, to the children its own target answers and to the frames that name it as parent |
| LaunchCycles.StartsRunOrLeaveNothing | runtime/selkies/network_worker.py:166-245 | when a start runs a browser, is refused or is retained, and that a refused one has left nothing behind |
| LaunchCycles.StopsReapTheLaunch | runtime/selkies/network_worker.py:247-281 | a stop answers retired if and only if the launch was, or has now been, reaped; unanswered or unknown it changes nothing |
| LaunchCycles.StatusTellsTheTruth | runtime/selkies/network_worker.py:317-335 | running, retired and unknown are told apart, and a dead browser is stopped before it is answered |
| LaunchCycles.DeadBrowsersAreNoticed | runtime/selkies/network_worker.py:317-335 | a browser that died is never reported as running, and its launch stays held until it is reaped |
| LaunchCycles.LaunchesAreOwned | runtime/selkies/platform.py:117-163 | a launch begins if and only if nothing unretired is owned and its id is new, and is owned from the moment it was sent |
| LaunchCycles.OnlyRefusalsRelease | runtime/selkies/network_client.py:125-161 | only a refusal given to this launch releases it |
| LaunchCycles.OnlyRetirementForgets | runtime/selkies/network_client.py:163-200 | only an answer that this launch is retired retires its handle, and only a retired one is forgotten |
| LaunchCycles.LaunchesRun | runtime/selkies/network_client.py:125-161 | from any reachable state a free client's launch ends confirmed, with its browser and no other alive |
| LaunchCycles.LaunchesRetire | runtime/selkies/network_client.py:196-200 | the stop of an owned launch ends with nothing alive, the launch reaped and the client free to launch again |
| LaunchCycles.LostStopsAreAskedAgain | runtime/selkies/network_client.py:171-183 | if the stop's answer was lost a status retires the handle just as well |
| ReleaseRuns.RunsBeginOnAuthority | scripts/release.py:742-755 | when a run begins, and whether it applies or verifies |
| ReleaseRuns.HinderedRunsStop | scripts/release.py:756-863 | exactly what stops each step, whether the failure is retryable, and that it touches nothing but the journal |
| ReleaseRuns.FailuresAreSaved | scripts/release.py:854-863 | a failed step saves what the run knew; a service stopped all the same is recorded; a crash saves nothing |
| ReleaseRuns.UnhinderedRunsVerify | scripts/release.py:756-853 | a run that nothing hinders stops the service once, brackets one snapshot, switches once and ends verified with the owner's data as it was, in exactly these fifteen steps |
| ReleaseRuns.VerifyingAgainChangesNothing | scripts/release.py:756-784 | a verified release is verified again by either verb with nothing on disk changed, whatever the owner has written since |
| TerminalRounds.InputsAreLetInInOrder | runtime/hermes/owner_terminal.py:340-355 | an input is let in if and only if binding, next sequence, size and open state agree; which refusal it gets otherwise |
| TerminalRounds.InputsLetInAreWritten | runtime/hermes/owner_terminal.py:355-362 | an input let in is written once, with its own bytes under the current epoch, and counts as written only if confirmed |
| TerminalRounds.PollsWait | runtime/hermes/owner_terminal.py:370-379 | a poll waits if and only if its binding is current and the output has reached its cursor |
| TerminalRounds.PollsAnswerWhatIsThere | runtime/hermes/owner_terminal.py:380-388 | its answer, from request to reply: the output from its cursor or the oldest byte kept, with gaps flagged, or nothing after a reattachment or expiry |
| TerminalRounds.AttachmentsOpenEpochs | runtime/hermes/owner_terminal.py:266-274 | another request or owner opens a new epoch; output, ledger and state stay |
| TerminalRounds.ShellsEnd | runtime/hermes/owner_terminal.py:188-229 | when a shell ends, and what is kept of it |
| TerminalRounds.OutputIsKept | runtime/hermes/owner_terminal.py:198-229 | what an open shell prints is kept up to the ring's size and counted; its end closes it for input |
| TransferRounds.OneChooserWaits | runtime/selkies/browser_files.py:189-199 | each chooser is new and replaces the one before; only its own session or a cancel naming it takes it away |
| TransferRounds.UploadsAreDeclared | runtime/selkies/browser_files.py:278-291 | an upload is declared if and only if its chooser waits at its destination, and declares what it declared before |
| TransferRounds.ChunksExtendOrRepeat | runtime/selkies/browser_files.py:314-330 | a chunk is taken if and only if it fits and extends the file at its end or repeats what is there |
| TransferRounds.CommitsHandOverTheFile | runtime/selkies/browser_files.py:298-312 | a commit hands over the file if and only if it is complete and its chooser still waits, and succeeds if that was confirmed |
| TransferRounds.DownloadsBeginOnce | runtime/selkies/browser_files.py:200-244 | a download begins once with the visibility of that moment; hiding hides what is pending, showing shows nothing pending |
| TransferRounds.DownloadsComplete | runtime/selkies/browser_files.py:215-236 | a pending download is completed with its file's size and digest, or cancelled, or left pending |
| TransferRounds.DownloadsAreCollected | runtime/selkies/browser_files.py:332-351 | a completed download is read while its file has the recorded size, and saved by its own digest; its file goes only then |
| TransferRounds.OutboxesAreRecovered | runtime/selkies/browser_files.py:365-382 | what recovery makes of each download and which files it removes |
| DownloadCollection.CompleteDownloadsAreCollected | src/radhouse/chat/browser_files.py:83-129 | conversely an idle collector can collect every complete download: its reads reach the end, its commit copies exactly the file, and its acknowledgement empties the outbox of it |
| DownloadCollection.AnswersAreChecked | src/radhouse/chat/browser_files.py:97-115 | an answer is taken if and only if it is the next bounded chunk of the listed file |
| DownloadCollection.CommitsAreChecked | src/radhouse/chat/browser_files.py:116-129 | the collector commits if and only if size, digest and the outbox's record agree with what was listed, and otherwise gives up |
| DownloadReceipts.ListingsDecide | runtime/hermes/browser_files.py:60-82 | what a listing tells of each file, in terms of whose hands the browser is in, what was recorded before and what the guest claims |
| PngChunks.StrippingKeepsTheOrder | scripts/public_privacy.py:131-136 | stripping drops exactly the tEXt, zTXt and iTXt chunks, one by one, and keeps the order of the others |
| StreamingRounds.OutsideCallsMoveTheStore | runtime/selkies/control.py:97-100 | everybody else's controller calls reach the boundary only through the store |

## Left out

- Storage and encodings: SQLite, JSON, file modes, ownership, links and fsync; a store is a map with atomic commit.
- Transports and the outside: sockets, CDP, X11, pseudo terminals, processes, systemd and Docker are outcomes given as parameters.
- Digests, CRC, random identifiers and clocks: digests and CRC are function parameters (collision-free only where a lemma says so), identifiers are fresh inputs, time is an arbitrary input of each call.
- Controller reads: current, live_states and activity_snapshot apply the same lazy expiry and change nothing else; validation inside the dataclass constructors and non-finite clock values are not modelled, nor are the fields native_name, pid and started of a row.
- BrowserControllers.BrowserController.AdmitRun: nothing is proved about reuse of older run ids, because the code compares only with the preceding run.
- Streaming boundary: the viewer table, new_session, filtering of Selkies message verbs, phase diagnostics and the no-streaming fence are not modelled; a coroutine waiting for a lock is a call that may start whenever the lock is free, and may be cancelled without effect; calls from other threads inside one stretch between two awaits are not interleaved.
- StreamingControls.StreamingControl.Take: the checks before waiting for the lock (that the viewer is known and may take, that the boundary is not blocked, that the browser is the current one) only refuse calls and say nothing once the lock is held, so the model takes every call.
- StreamingControls.StreamingControl.Move: the same checks before waiting for the lock.
- StreamingControls.StreamingControl.AdmitFollowUp: the comparison with the return binding kept from the handback and the look at the previous run's status, which only refuse further admissions; what the controller itself asks of the handover and of the previous run is modelled.
- Native channel: validation of tool arguments, the mappings to browser commands and waiting with a timeout.
- Launch protocol: the relay tunnels, the start of display and child processes, and a restart of the worker itself.
- LaunchProofs.NeverTwoBrowsers: rests on one start per launch id, as the client guarantees; ForgottenLaunchesCouldRestart shows why.
- Release: packet, manifest, authority and unit-file validation, staging of files and receipts are the lucky or unlucky outcome of the step they belong to; a journal write that itself fails counts as a failure before the write; a snapshot is its digest.
- Owner terminal: the registry of at most eight shells, spawning, status and resize requests, the maintenance hold on a reattachment, cleanup of descendants and scrubbing of context; an input's base64 decoding is a parameter.
- Uploads: interleaved callers inside one agent upload (its identity is fresh, so nobody else writes to it) and a chunk write whose thread goes on after its request was cancelled.
- BrowserDownloads.Download: the outbox does not change between its reads; ReadsAddUp speaks of reads at different moments.
- BrowserDownloads.Receive: only what holds when it stops; NothingIsLost speaks of every moment, and takes the collector as the only one to acknowledge.
- Downloads: listing limits, file names and which owner may collect from which launch; the browser is taken to store a final file once and not to change it.
- FrameTraversal.ClearCoversEveryFrame: one direction only for inconsistent trees; which frames are missed then depends on the order the browser lists them in.
- FrameTraversal.SensitiveClear: the timeout of the whole check, which is one more way to give no answer.
- Web application, HTTP routing, redaction, packaging, installer and qualification scripts: none of them decides who may act on the browser or carries its data.
