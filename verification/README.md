# Sandbox control plane: a verified model

This project models the sandbox control plane in Dafny 4.11 and proves what its protocols keep.
`dafny verify dfyconfig.toml` checks everything.

Three parts of the control plane are modelled.

**Leases, jobs and pod generations.** Several replicas race over one lease row per (assistant,
workspace), over job rows, and over pods stamped with a (job, token) generation. `Records` holds the
three kinds of record and the statements that change them. `Programs` holds the programs of the
replicas: the executor of a queued job, bind, the guard before an exec, clear, retire, the baseline
rewrite, the reaper, the owner reconcile and the recycle path, with one program counter each and with
whatever they read earlier as a remembered snapshot. `Programs.Next` is one atomic step of the whole
system, `Programs.Run` a finite run from the empty state. Every statement carries the time stamp its
replica sent; a run is *timely* when those stamps never go back. Theorems that do not ask for a timely
run hold whatever the clocks of the replicas say. The other job writers, the heartbeat and the removal
of pods by uid alone may strike at any moment (moves `Write`, `Renew` and `Evict`), which covers more
than the code allows.

The argument is one inductive invariant (`Protocol.Sound`) and one relation that every step obeys
(`Protocol.Evolves`): lease rows stay, tokens are never installed twice, job statuses only move on,
and every pod version ever stored is kept by resource version, so that a matching version means an
unchanged pod. `WorkspaceLeases` has the tables and the lease guard as objects that are updated in
place, tied to the same statements. Safety apart, `Outcomes` and `PodChanges` list exactly what moves a job to
each status and what changes a pod, `Progress`, `Reaping` and `Leases` show that the programs do what they
are there for and give up or spare only for a reason. `Scenario` shows runs in which the hypotheses of the theorems hold.

**The stdio pipeline of a Script.** The frame decoder as the class it is, against a line-by-line
meaning of the whole stream; the response lifecycle, in which every frame has a writer of its own that
gives way at each chunk, a chain of promises keeps the writers apart and `close` waits for a snapshot
of the tasks and for the tail of the chain; the stdout collector; and the byte arithmetic of the
result protocol.

**Names, paths, quoting, sharing.** Path normalisation, object keys, collision-free names, shell
quoting, the hydrate pool, policy deltas and the admission of Script executions.

## What the proofs found

- An overlong Script result is not always rejected as too large. The control plane trims the printed head
  before it measures it, so the length is not noticed exactly when the head, one byte over the limit,
  begins or ends with white space (`OutputFraming.OverlongFileIsRejected`); and the file is accepted as a
  result exactly when, besides, what is left is not empty and parses (`OutputFraming.OverlongFileIsAccepted`,
  with an input in `OutputFraming.CutAtWhiteSpaceGoesUnnoticed`). The comment above the parser promises that
  nothing is ever truncated silently.
- Ordinary output is not always independent of the cut. A rejected frame line leaves behind, in the buffer,
  what came after it in the same chunk, and the flush forwards that. Frames and failure never depend on the
  cut; the output does exactly when a rejected frame line has text behind it
  (`FrameDecoder.OutputIgnoresCutExactly`, with two cuts of one stream in
  `FrameDecoder.CutBehindRejectedFrameMatters`).
- A collision-free name can collide: exactly when every index from the start index to 9999 is taken and
  the name made from the clock is taken too (`SharedOutboundBasename.ResolvedIsLeastFree`), as for
  `a (9999).pdf` at its second collision in one millisecond (`SharedOutboundBasename.LastResortCollides`).
- A terminal job status is not always final: it is replaced exactly by the unconditional write to
  `blocked` after a failed preflight, unless it is `blocked` already (`Lifecycle.OnlyBlockReplacesTerminal`),
  as when a Script is cancelled during its preflight (`Scenario.CancelledJobBecomesBlocked`). Once the
  preflight is over a terminal status is final (`Lifecycle.TerminalIsFinal`).
- A session can be marked as hydrated although files are missing: a listing that fails counts as an empty
  one, and a write that ends with an exit code other than 0 is only logged and counts as done. A marked
  session is complete exactly if neither happened to anything stored (`HydratePool.MarkerMeansComplete`,
  with inputs in `HydratePool.FailedListingGoesUnnoticed` and `HydratePool.LoggedWriteGoesUnnoticed`).
- An empty sub-path is not the whole workspace: its prefix ends in two slashes and matches no key
  (`ObjectKeys.WholeWorkspacePrefix`).

## Model

| member | source | states |
|---|---|---|
| Protocol.NextKeeps | apps/sandbox/src/exec-pod-bridge.service.ts:3734-3865 | Every step of every program keeps the invariant: stamps are whole and name an issued generation of the pod's owner, snapshots are versions that were really stored, executors' flags are true; and it obeys the evolution relation. |
| Snapshots.ReplaceKeeps | apps/sandbox/src/exec-pod-bridge.service.ts:3783-3801 | A replace that carries the metadata read succeeds only if the pod still is exactly the version read. |
| Fencing.SpentTokenIsFenced | apps/sandbox/src/sandbox.service.ts:2887-2968 | A displaced or released token never again renews, passes a lease assertion or commits a job update, with no assumption on clocks; an expired one never does in timely runs. |
| Fencing.CommitsAreContiguous | apps/sandbox/src/sandbox.service.ts:2932-2968 | Successful acts under one token form one block: none of another token of the workspace lies between two of them, with no assumption on clocks. |
| Fencing.CheckSandwich | apps/sandbox/src/exec-pod-bridge.service.ts:3676-3710 | Between two passed lease checks of one token its lease held in every state and at every statement. |
| Fencing.RowKeptBetween | apps/sandbox/src/sandbox.service.ts:2773-2812 | Without any clock: if a token is not displaced at the end, the row carried it at every moment before. |
| Windows.GuardWindow | apps/sandbox/src/exec-pod-bridge.service.ts:3925-4012 | When the guard before an exec passes, the job's lease held from its first check on; in between the pod was seen with the expected uid, workspace, handle, mode and stamp, and after that the canonical egress mode of the assistant was the one the job is bound to. |
| Windows.BindWindow | apps/sandbox/src/exec-pod-bridge.service.ts:3745-3858 | The pod a completed bind reports carried its stamp and was read again, the same pod and still stamped, inside a window in which the lease held throughout, also after retries. |
| Windows.WindowsDoNotOverlap | apps/sandbox/src/exec-pod-bridge.service.ts:3940-4010 | Overlapping windows of one workspace belong to one generation. |
| Sweeps.SweepSparesPodsAtWork | apps/sandbox/src/exec-pod-bridge.service.ts:1551-1693 | In every interleaving no step of the reaper or the owner reconcile removes or changes a pod whose stamped job is pending under its live token. |
| Sweeps.SweepSparesJobsAtWork | apps/sandbox/src/exec-pod-bridge.service.ts:3867-3901 | No step of the reaper or the owner reconcile changes a pending job that holds a live lease under any token. |
| Sweeps.SweepsInformed | apps/sandbox/src/exec-pod-bridge.service.ts:1589-1663 | What a sweep concluded from old query results still holds at every later step. |
| Sweeps.SweepDeletesOnlyItsSnapshot | apps/sandbox/src/exec-pod-bridge.service.ts:4109-4139 | A sweep deletes a pod only if it still is exactly the version it had listed. |
| Sweeps.NoActiveLeaseMeansSpent | apps/sandbox/src/exec-pod-bridge.service.ts:3613-3622 | A lease query as of an earlier time that finds nothing means that the stamped token is spent. |
| Sweeps.RecycleSparesGenerationsAtWork | apps/sandbox/src/exec-pod-bridge.service.ts:1104-1167 | If the caller still held its token when it read the pod, marking the stamped job and, while the pod keeps that stamp, deleting it never hits a generation at work. |
| Sweeps.RecycleHitsNoForeignGeneration | apps/sandbox/src/exec-pod-bridge.service.ts:1144-1167 | If the caller holds its token at the delete, then whatever was stamped on the pod since the read, a generation at work that is hit is its own. |
| Reaping.UnstampedPodsAreReapedIdle | apps/sandbox/src/exec-pod-bridge.service.ts:1625-1675 | Before the reaper deletes a pod that no job is stamped on, it has seen, one after the other, that no job of the workspace was pending, that no lease reached beyond the beginning of the tick, and that the newest job and the pod were older than the idle time. |
| Reaping.UnownedPodsAreReapedByAge | apps/sandbox/src/exec-pod-bridge.service.ts:1667-1675 | A pod without a workspace is deleted only if it is older than the idle time. |
| Reaping.StampedPodsAreSparedAtWork | apps/sandbox/src/exec-pod-bridge.service.ts:1600-1624 | A tick that does not fail spares a stamped pod only if its job was pending and then its lease live: all others go on to be deleted. |
| Reaping.UnstampedPodsAreSparedInUse | apps/sandbox/src/exec-pod-bridge.service.ts:1625-1675 | A tick that does not fail spares any other pod only for a pending job, a lease, or use within the idle time. |
| PodChanges.PodsChangeOnlyThus | apps/sandbox/src/exec-pod-bridge.service.ts:3783-3801 | All the ways a pod comes to be or changes: created bare, touched by the cluster, stamped by a bind of its own workspace, cleared of exactly its stamp, or given its first baseline; nothing else of it ever changes. |
| PodChanges.PodsGoOnlyThus | apps/sandbox/src/exec-pod-bridge.service.ts:4109-4139 | All the ways a pod goes: evicted, or deleted by retirement, reaper, reconcile or recycle in just the circumstances that program is meant for. |
| PodChanges.BaselineIsRecordedOnce | apps/sandbox/src/exec-pod-bridge.service.ts:2109-2145 | A recorded baseline stays as long as the pod does. |
| Progress.GuardGoesOn | apps/sandbox/src/exec-pod-bridge.service.ts:3925-4012 | The guard refuses no job that holds its lease, owns its pod and has the canonical mode. |
| Progress.BindGoesOn | apps/sandbox/src/exec-pod-bridge.service.ts:3745-3858 | A bind by the lease holder of a pod of its own that carries no foreign stamp goes on, and leaves its stamp on it. |
| Progress.ConflictIsRetried | apps/sandbox/src/exec-pod-bridge.service.ts:3802-3812 | A conflict sends a bind back to its first check, on the third attempt it ends. |
| Progress.AtMostThreeAttempts | apps/sandbox/src/exec-pod-bridge.service.ts:3745-3812 | In no reachable state is a bind past its third attempt. |
| Progress.ClearDoesItsWork | apps/sandbox/src/exec-pod-bridge.service.ts:4935-4980 | A clear finds its own stamp and takes it off a pod that has not changed since. |
| Progress.RetireDoesItsWork | apps/sandbox/src/exec-pod-bridge.service.ts:4982-5048 | A retirement finds its own pod and removes it if it has not changed since. |
| Progress.BaselineDoesItsWork | apps/sandbox/src/exec-pod-bridge.service.ts:2109-2145 | A baseline is recorded on a pod that has none and has not changed since. |
| Progress.ErrorsAreHandled | apps/sandbox/src/sandbox.service.ts:1505-1516 | An executor that waits in vain or meets an error turns to its error handling and keeps what it has. |
| Progress.HandledJobsCanEnd | apps/sandbox/src/sandbox.service.ts:1535-1568 | There it can still end its job, a queued one if it never had the lease, a running one under its live lease. |
| Progress.SweepDeletes | apps/sandbox/src/exec-pod-bridge.service.ts:4109-4139 | A sweep that has got to its delete removes the pod, unless it is no longer the version listed. |
| Progress.StaleModesAreSparedAtWork | apps/sandbox/src/exec-pod-bridge.service.ts:3441-3528 | The owner reconcile spares a pod with a stale mode only if it has changed or gone, or its job was pending and then its lease live. |
| Progress.RecycleIsAdmitted | apps/sandbox/src/exec-pod-bridge.service.ts:1104-1143 | The recycle path is open to whoever holds the lease. |
| Progress.RecycleTakesUpForeignPods | apps/sandbox/src/exec-pod-bridge.service.ts:1144-1150 | It takes up a pod of its workspace that another generation is stamped on. |
| Progress.RecycleDoesItsWork | apps/sandbox/src/exec-pod-bridge.service.ts:1150-1167 | It has the stamped job marked, and then removes every pod with the uid it read. |
| Ownership.OwnershipIsExclusive | apps/sandbox/src/exec-pod-bridge.service.ts:4935-4980 | Over whole runs a stamp on a pod uid disappears only through a clear carrying the same job, token and uid. |
| Ownership.StampChangesOnlyByItsOwner | apps/sandbox/src/exec-pod-bridge.service.ts:2109-2145 | No single step, not even a baseline rewrite or a retried bind, replaces a foreign stamp. |
| Ownership.PodsAreSound | apps/sandbox/src/exec-pod-bridge.service.ts:3790-3798 | No reachable pod is half stamped or stamped for another workspace. |
| Ownership.DeletersHitWhatTheyMean | apps/sandbox/src/exec-pod-bridge.service.ts:4982-5036 | Retirement removes a pod only with its own uid and stamp on it; the owner reconcile only one with a stale mode. |
| Lifecycle.JobLifecycle | apps/sandbox/src/sandbox.service.ts:1085-1092 | Over runs: completedAt is set exactly when the status is terminal, terminal stays terminal, running and detached are never entered again. |
| Outcomes.StatusHasItsCauses | apps/sandbox/src/sandbox.service.ts:1467-1504 | For every status, exactly the moves that bring a job to it, with the guard under which each of them does: completed only on success, failed only on failure or staleness, and so on; and the times of the row are set to match. |
| Outcomes.StatusWasBroughtAbout | apps/sandbox/src/sandbox.service.ts:1467-1568 | Over runs: whatever status a job has come to, one of the moves listed for it has brought it there. |
| Outcomes.JobsBegin | apps/sandbox/src/sandbox.service.ts:193-236 | A job begins queued, with an executor still to be enqueued, or blocked and with none. |
| Outcomes.EndedExecutorsStayEnded | apps/sandbox/src/sandbox.service.ts:376-405 | A job blocked by its submitter is never executed, and an executor that has ended does nothing more. |
| Lifecycle.JobStepIsLegal | apps/sandbox/src/sandbox.service.ts:591-646 | The only changes any writer makes to a job: never backwards, into running only from queued, into detached only from running, out of a terminal status only to blocked. |
| Lifecycle.OnlyBlockReplacesTerminal | apps/sandbox/src/sandbox.service.ts:379-395 | A terminal status is replaced if and only if the step is the unconditional write to blocked of its submitter and the status is not blocked already. |
| Lifecycle.TerminalIsFinal | apps/sandbox/src/sandbox.service.ts:376-405 | Over runs: once its submitter is past the preflight, the terminal status of a job never changes. |
| Scenario.CancelledJobBecomesBlocked | apps/sandbox/src/sandbox.service.ts:376-395 | A reachable run in which a cancelled job becomes blocked. |
| Lifecycle.StartsUnderLiveLease | apps/sandbox/src/sandbox.service.ts:1351-1359 | A job becomes running or detached only through its own executor under its live lease. |
| Lifecycle.HandOverIsSafe | apps/sandbox/src/sandbox.service.ts:1578-1649 | The workspace passes on only after expiry, or explicitly by the last step of its own executor, when the job is terminal or detached and the pod finalised or handed over with the job. |
| Lifecycle.HandedOverLeaseIsReleased | apps/sandbox/src/sandbox.service.ts:1578-1649 | An executor that brought its job to an end and finalised the pod does release its lease, unless its error handling failed in between. |
| Protocol.WorkFollowsStart | apps/sandbox/src/sandbox.service.ts:1344-1366 | Nothing is worked on before its job has started. |
| Leases.LeasesAreShort | apps/sandbox/src/sandbox.service.ts:2971-2985 | In every reachable state each lease ends within 30 seconds of the latest statement, and a released row is not in the future. |
| Leases.UnrenewedRowsRunOut | apps/sandbox/src/sandbox.service.ts:2887-2907 | A row whose token nobody renews keeps its expiry as long as it keeps its token. |
| Leases.DeadHolderBlocksForOneLifetime | apps/sandbox/src/sandbox.service.ts:2751-2812 | Once 30 seconds have gone by without a renewal, a waiting executor can take the workspace, however its holder failed, unless another one already has. |
| Leases.ReleasedWorkspaceIsFree | apps/sandbox/src/sandbox.service.ts:2916-2930 | A released workspace can be taken at once. |
| Lifecycle.PendingJobKeepsWorkspace | apps/sandbox/src/sandbox.service.ts:1306-1652 | Over runs: while a job is pending and its lease has not run out, nobody else gets the workspace, through aborts, errors and detach paths. |
| Protocol.ExecutorFlagsAreTrue | apps/sandbox/src/sandbox.service.ts:1505-1577 | In every reachable state, if the flags that `finally` reads say that a terminal or detached status was written, the job is terminal or detached. |
| WorkspaceLeases.SandboxDatabase.TryAcquireWorkspaceLease | apps/sandbox/src/sandbox.service.ts:2773-2812 | Two statements with any work of other replicas in between: acquires exactly if there was no row at the first or an expired one at the second, installs exactly the handle into the tables as they then are, and keeps the table invariant. |
| WorkspaceLeases.SandboxDatabase.ClaimExpiredWorkspaceLease | apps/sandbox/src/sandbox.service.ts:2794-2811 | Takes the row over exactly if it has expired, and no token is revived. |
| WorkspaceLeases.SandboxDatabase.RenewWorkspaceLease | apps/sandbox/src/sandbox.service.ts:2887-2907 | Renews exactly if the token is live, and revives nothing. |
| WorkspaceLeases.SandboxDatabase.ReleaseWorkspaceLease | apps/sandbox/src/sandbox.service.ts:2916-2930 | Afterwards the token is displaced; a row that has passed on is left alone. |
| WorkspaceLeases.SandboxDatabase.UpdateSandboxJobUnderActiveLease | apps/sandbox/src/sandbox.service.ts:2932-2968 | Updates exactly if the token is live and the status is the expected one. |
| WorkspaceLeases.WorkspaceLeaseGuard.Heartbeat | apps/sandbox/src/sandbox.service.ts:2814-2855 | A tick is skipped while a renewal is under way; otherwise the guard stays active exactly if the lease was live and the database said so, with a handle that agrees with the row; a refusal, an error or a lost answer ends it. |
| WorkspaceLeases.WorkspaceLeaseGuard.UpdateSandboxJob | apps/sandbox/src/sandbox.service.ts:2932-2968 | Updates the job exactly under the live lease, and a refusal ends the guard. |
| WorkspaceLeases.WorkspaceLeaseGuard.Stop | apps/sandbox/src/sandbox.service.ts:2857-2872 | Gives the lease up exactly when the job was handed over and its pod finalised. |
| Scenario.SomeRunGetsToWork | apps/sandbox/src/sandbox.service.ts:1344-1359 | The hypotheses can be met: a timely run in which a job starts, its bind completes, the guard passes and the generation is at work. |
| Scenario.SomeWindowsOpen | apps/sandbox/src/exec-pod-bridge.service.ts:3925-4012 | In that run both the window of the bind and the window of the guard are there. |
| Scenario.ChangedModeIsRefused | apps/sandbox/src/exec-pod-bridge.service.ts:3955-3975 | A run in which the egress mode is changed after the guard has read the pod, and the guard does not pass. |
| FrameDecoder.DecodeStream | apps/sandbox/src/script-browser-frame.ts:75-138 | However a stream is cut into chunks, frames, failure and ordinary output equal those of its line-by-line reading, but for what the flush forwards after a failed write, which is given exactly for every cut. |
| FrameDecoder.DecodeLines | apps/sandbox/src/script-browser-frame.ts:98-137 | Said without the line reading: for good lines and an ending, however they are cut, the decoder dispatches exactly the decoded frame bodies in order, forwards exactly the other lines, and fails exactly if the stream ends in a bad or unfinished frame. |
| FrameDecoder.StreamsAreLines | apps/sandbox/src/script-browser-frame.ts:98-137 | Every stream is good lines and such an ending. |
| FrameDecoder.OutputIgnoresCutExactly | apps/sandbox/src/exec-pod-bridge.service.ts:2980-2993 | All output, that of the flush included, is the same for all cuts of a stream if and only if no rejected frame line has text behind it, and then it is that of the line-by-line reading. |
| FrameDecoder.SpillIsBehind | apps/sandbox/src/script-browser-frame.ts:129-137 | Whatever the cut, a flush after a failed write forwards nothing but the beginning of the text behind the first rejected frame line. |
| FrameDecoder.CutBehindRejectedFrameMatters | apps/sandbox/src/script-browser-frame.ts:98-109 | A stream with two cuts that differ in what is forwarded. |
| FrameDecoder.ScriptBrowserFrameDecoder.Write | apps/sandbox/src/script-browser-frame.ts:87-127 | A chunk leaves the meaning of everything still to come unchanged and bounds the buffer; it fails exactly when a complete frame line is rejected, with what is behind it left in the buffer, or an unfinished frame outgrows the buffer. |
| FrameDecoder.ScriptBrowserFrameDecoder.FlushRemainder | apps/sandbox/src/script-browser-frame.ts:129-137 | An unfinished line is ordinary output unless it is a frame. |
| FrameDecoder.OverlongFrameFails | apps/sandbox/src/script-browser-frame.ts:110-117 | A frame line that outgrows the buffer would be rejected however it went on. |
| FrameDecoder.SpillKeepsMeaning | apps/sandbox/src/script-browser-frame.ts:118-121 | Forwarding the beginning of a long ordinary line changes nothing in the end, even if a frame prefix follows in mid-line. |
| FrameDecoder.OrdinaryTextPassesThrough | apps/sandbox/src/script-browser-frame.ts:101-108 | A stream without frames is forwarded byte for byte. |
| ResponseLifecycle.AtMostOneWriterRuns | apps/sandbox/src/script-browser-response-lifecycle.ts:63-67 | The promise chain lets at most one of the writers run at a time. |
| ResponseLifecycle.WireCarriesWholeFrames | apps/sandbox/src/script-browser-response-lifecycle.ts:63-76 | In every interleaving of all writers and handlers the wire is whole frames in enqueue order and a part of the next, in chunks of at most 65536 bytes, and no two writers run at once. |
| ResponseLifecycle.EndComesAfterEverything | apps/sandbox/src/script-browser-response-lifecycle.ts:47-61 | After the broker, the snapshot of the tasks and the captured tail have been awaited and stdin has ended, every frame enqueued is on the wire, and every accepted request owns exactly one or was rejected after the close began. |
| ResponseLifecycle.ResolvedFrameIsWrittenOnce | apps/sandbox/src/script-browser-response-lifecycle.ts:31-33 | A request that resolves, even during the close, owns exactly one writer from then on, for its own frame, and when stdin has ended that frame is on the wire in full. |
| ResponseLifecycle.EarlyRejectionIsWrittenOnce | apps/sandbox/src/script-browser-response-lifecycle.ts:34-40 | A request that is rejected before the close began has its failure frame written exactly once. |
| ResponseLifecycle.DispatchWhileOpen | apps/sandbox/src/script-browser-response-lifecycle.ts:26-45 | A new request is taken up exactly while the close has not begun. |
| ResponseLifecycle.CloseCanFinish | apps/sandbox/src/script-browser-response-lifecycle.ts:47-61 | No deadlock: from every state of a close in which all responses have come there is a way to its end. |
| ResponseLifecycle.LateRejectionWritesNothing | apps/sandbox/src/script-browser-response-lifecycle.ts:34-40 | A rejection after the close began never gets a writer. |
| ResponseLifecycle.EndIsFinal | apps/sandbox/src/script-browser-response-lifecycle.ts:51-60 | After the end nothing changes any more. |
| ResponseLifecycle.LoopDoesItsWork | apps/sandbox/src/script-browser-response-lifecycle.ts:69-76 | The loop of a writer that nobody interrupts puts exactly what is left of its frame on the wire, in as few chunks as the bound allows, and touches no other writer. |
| ResponseLifecycle.ScriptBrowserResponseLifecycle.WriteChunked | apps/sandbox/src/script-browser-response-lifecycle.ts:69-76 | The chunk loop finishes its writer, touches no other, puts exactly the rest of its frame on the wire in as few chunks as the bound allows, and keeps the invariant. |
| ResponseLifecycle.ScriptBrowserResponseLifecycle.End | apps/sandbox/src/script-browser-response-lifecycle.ts:51-60 | When the captured tail has settled, everything enqueued has been written. |
| ResponseLifecycle.SomeCloseEnds | apps/sandbox/src/script-browser-response-lifecycle.ts:47-61 | A run in which a response comes while the broker is closing and the close ends with its frame on the wire. |
| OutputFraming.LimitedCollector.Write | apps/sandbox/src/exec-pod-bridge.service.ts:257-276 | Whatever the cutting, exactly the first limit bytes are kept, and the error is set exactly when more has arrived. |
| OutputFraming.ResultProtocol | apps/sandbox/src/script-execution-support.ts:140-155 | With an effective limit of at least 1 the wrapper never trips the stdout cap; a marker-free file within the limit comes back trimmed and is the result exactly if it is not blank and parses; a longer one is rejected as too large exactly when its head has no white space at its ends. |
| OutputFraming.EffectiveLimitIsLargest | apps/sandbox/src/script-execution-support.ts:140-155 | The effective limit is the largest that keeps both caps of the policy and fits the stdout cap. |
| OutputFraming.MarkerSeparates | apps/sandbox/src/script-execution-support.ts:289-312 | Everything before the marker line is diagnostic output, everything behind it, trimmed, the result. |
| OutputFraming.NoMarkerNoResult | apps/sandbox/src/script-execution-support.ts:289-296 | Without a marker everything is diagnostic output. |
| OutputFraming.TrimTakesSpace | apps/sandbox/src/script-execution-support.ts:304-310 | Trimming takes white space off both ends, all of it and nothing else. |
| OutputFraming.MarkerIsFound | apps/sandbox/src/script-execution-support.ts:289-312 | The last occurrence of the marker is the one the wrapper printed. |
| OutputFraming.OverlongFileIsRejected | apps/sandbox/src/script-execution-support.ts:323-340 | The exact condition under which an overlong result is rejected as too large. |
| OutputFraming.OverlongFileIsAccepted | apps/sandbox/src/script-execution-support.ts:323-350 | The exact condition under which an overlong result is accepted. |
| OutputFraming.CutAtWhiteSpaceGoesUnnoticed | apps/sandbox/src/script-execution-support.ts:304-310 | Under the marker of any invocation key, an overlong file that is not JSON whose head is taken for the result. |
| ShellQuoting.CommandArrayRoundTrip | apps/sandbox/src/exec-pod-bridge.service.ts:224-230 | A POSIX shell reads back exactly the words of the command array, for all strings. |
| WorkspacePath.NormalizePosixPath | apps/sandbox/src/workspace-path.ts:61-88 | The loop with its stack computes the lexical walk from the root. |
| WorkspacePath.NameAndParentCancel | apps/sandbox/src/workspace-path.ts:74-80 | What the walk is: a name and the parent segment behind it cancel, wherever they stand. |
| WorkspacePath.NamesLeadDown | apps/sandbox/src/workspace-path.ts:82-86 | Names lead down, one after the other. |
| WorkspacePath.ParentGoesUp | apps/sandbox/src/workspace-path.ts:61-88 | In a path, a name and the parent segment behind it may be left out, wherever they stand. |
| WorkspacePath.StayingGoesNowhere | apps/sandbox/src/workspace-path.ts:70-73 | So may a dot segment and repeated slashes. |
| WorkspacePath.ClimbingAboveTheRootFails | apps/sandbox/src/workspace-path.ts:75-78 | A path that climbs above the root is invalid. |
| WorkspacePath.BackslashesAreASlash | apps/sandbox/src/workspace-path.ts:62-62 | A run of backslashes is a slash. |
| WorkspacePath.NormalizedDenotesSameNode | apps/sandbox/src/workspace-path.ts:61-88 | Succeeds exactly on absolute paths without NUL that never climb above the root; the result is canonical, denotes the same node, and is a fixed point. |
| WorkspacePath.ClampIsExact | apps/sandbox/src/workspace-path.ts:96-119 | Clamping to any mount root accepts exactly the paths at the root or below it, and returns the way from the root to the path. |
| WorkspacePath.MountCheckIsExact | apps/sandbox/src/workspace-path.ts:96-137 | Accepts exactly the paths whose walk enters the mount, returns the mount or a canonical path below it, and is the identity on its results. |
| ObjectKeys.KeysAreInjective | apps/sandbox/src/sandbox-object-storage.service.ts:47-61 | Distinct workspaces or normalised paths have distinct keys. |
| ObjectKeys.KeyLayout | apps/sandbox/src/sandbox-object-storage.service.ts:56-60 | The key of a normalised path, written out: it continues the prefix of its workspace. |
| ObjectKeys.OuterSlashesAreIgnored | apps/sandbox/src/sandbox-object-storage.service.ts:64-67 | Slashes around a sub-path make no difference to its prefix. |
| ObjectKeys.PrefixMatchesExactlySubtree | apps/sandbox/src/sandbox-object-storage.service.ts:63-68 | A subtree prefix, as bulk deletes use it, matches a key exactly if the workspace is the same and the path lies strictly below. |
| ObjectKeys.WholeWorkspacePrefix | apps/sandbox/src/sandbox-object-storage.service.ts:64-67 | Without a sub-path the prefix matches exactly the workspace; with an empty one it matches nothing. |
| SharedOutboundBasename.ResolveMacOsCollisionBasename | apps/sandbox/src/shared-outbound-basename.ts:9-29 | The loop computes the choice that the lemmas are about. |
| SharedOutboundBasename.ResolvedIsLeastFree | apps/sandbox/src/shared-outbound-basename.ts:13-28 | The name itself if free, else the least free index, and the exact condition for a collision. |
| SharedOutboundBasename.LastResortCollides | apps/sandbox/src/shared-outbound-basename.ts:19-28 | A name whose start index is past the last one gets a name that is in use. |
| SharedOutboundBasename.SuffixMatch | apps/sandbox/src/shared-outbound-basename.ts:19-21 | Finds a numeric suffix exactly when the regular expression matches. |
| SharedOutboundBasename.ExtensionBeginsAtLastDot | apps/sandbox/src/shared-outbound-basename.ts:16-18 | The extension begins at the last dot, unless that is the first character. |
| SharedOutboundBasename.UnnumberedStartsAtOne | apps/sandbox/src/shared-outbound-basename.ts:19-23 | A stem without a number is numbered from 1 on. |
| SharedOutboundBasename.NumberedGoesOn | apps/sandbox/src/shared-outbound-basename.ts:19-23 | A stem that ends in a number goes on behind it. |
| SharedOutboundBasename.FirstNumber | apps/sandbox/src/shared-outbound-basename.ts:1-8 | The documented first step: a taken name is followed by its number 1. |
| SharedOutboundBasename.NextNumber | apps/sandbox/src/shared-outbound-basename.ts:1-8 | The documented next step: a taken number is followed by the next. |
| SharedOutboundBasename.SomeNumbers | apps/sandbox/src/shared-outbound-basename.ts:23-23 | Numbers are written and read in decimal. |
| SharedOutboundBasename.FewNamesLeaveOneFree | apps/sandbox/src/shared-outbound-basename.ts:22-28 | Pigeonhole: with fewer names than indices the clock is never used. |
| SharedOutboundBasename.AllocatedNamesAreDistinct | apps/sandbox/src/shared-outbound-basename.ts:9-29 | Repeated insertion yields new, pairwise distinct names. |
| HydratePool.HydrateTargets | apps/sandbox/src/exec-pod-bridge.service.ts:2543-2575 | For any number of workers and any schedule every target is attempted exactly once, the count is that of the attempts that returned true, and the files in the pod are those of the attempts that stored them. |
| HydratePool.HydrateBootstrapWorkspaceMounts | apps/sandbox/src/exec-pod-bridge.service.ts:2407-2423 | Over the pools of all prefixes the session marker is written exactly if something was listed and every attempt on everything listed returned true, and then the pod is complete exactly if nothing was swallowed. |
| HydratePool.MarkerMeansComplete | apps/sandbox/src/exec-pod-bridge.service.ts:2202-2220 | The pod of a marked session holds every stored object if and only if every prefix with objects was listed and no write was logged as failed. |
| HydratePool.FailedListingGoesUnnoticed | apps/sandbox/src/exec-pod-bridge.service.ts:2498-2508 | A marked session with a missing file, one of whose prefixes could not be listed. |
| HydratePool.LoggedWriteGoesUnnoticed | apps/sandbox/src/exec-pod-bridge.service.ts:2631-2640 | A marked session with a missing file whose write was only logged. |
| PolicyDeltas.BuildWorkspacePolicyDeltas | apps/sandbox/src/sandbox.service.ts:3299-3327 | The loop charges each side what the totals say. |
| PolicyDeltas.OneMoreEntry | apps/sandbox/src/sandbox.service.ts:3310-3325 | One more entry costs nothing if it was there before or belongs to the other side, else a file its bytes and one file, a directory one directory. |
| PolicyDeltas.NoSessionNoDependencies | apps/sandbox/src/sandbox.service.ts:3314-3319 | Outside a session everything new is charged to ordinary files. |
| PolicyDeltas.SidesPartitionTheChange | apps/sandbox/src/sandbox.service.ts:3314-3325 | The two sides sum exactly to what is new since the baseline. |
| PolicyDeltas.OrderDoesNotMatter | apps/sandbox/src/sandbox.service.ts:3310-3325 | The charge does not depend on the iteration order. |
| ScriptIdempotency.OneExecutionPerSlot | apps/sandbox/src/sandbox.service.ts:302-374 | For any submissions in any order: the row of a slot never changes, the slot is enqueued at most once and with the job of its row, and every submission gets the id of that job, as a conflict exactly if it differs from the row. |
| ScriptIdempotency.RunIsFinal | apps/sandbox/src/sandbox.service.ts:339-374 | Over runs rows, answers and executions are never taken back. |
| ScriptIdempotency.AdmissionLeavesARow | apps/sandbox/src/sandbox.service.ts:302-327 | Whoever is past the create step has a row in its slot. |
| ScriptIdempotency.InsertAndLookUpDecide | apps/sandbox/src/sandbox.service.ts:302-374 | The first to insert creates the row it asked for; everyone after loses and is answered with its job, or with the conflict. |
| ScriptIdempotency.PreflightDecides | apps/sandbox/src/sandbox.service.ts:376-405 | The preflight of the winner decides alone and for good: if it passes the job is enqueued, if not nothing ever is for that slot. |
| ScriptIdempotency.OnlyWinnersEnqueue | apps/sandbox/src/sandbox.service.ts:376-405 | Only the submission that created a job enqueues it. |

## Where the programs come from

- `Programs.ExecStep`: `executeQueuedJob`, apps/sandbox/src/sandbox.service.ts:1306-1652, with the submission before it, 193-236 and 302-405.
- `Programs.Written`: `cancelJob` 552-648, `refreshDetachedJob` 940-1038, `failStaleJob` 1138-1179 and the last write of the reaper, apps/sandbox/src/exec-pod-bridge.service.ts:1695-1718.
- `Programs.BindStep`, `GuardStep`, `ClearStep`, `RetireStep`, `BaselineStep`, `ReapStep`, `ReconcileStep`, `RecycleStep`: apps/sandbox/src/exec-pod-bridge.service.ts:3734-3865, 3925-4012, 4935-4980, 4982-5048, 2036-2145, 1551-1723, 3441-3528, 1104-1167.
- `Programs.Evict`: every delete by uid alone, the same file 725, 1194, 1206, 1222, 1358, 1833, 4068 and 4187, and removals by the cluster itself.

## Left out

- Time stamps: a statement of a timely run takes effect at the time it carries; a replica that sends a stamp and is then delayed makes a run that is not timely.
- Exec websockets, tar, object store, Redis, Prisma and Nest wiring, process clean-up inside pods: outcomes of these are free choices of the environment.
- Guard: only the variant for a caller bound to a job; control work without a lease, which may only use unstamped pods, is not modelled.
- Recycling pods with a wrong mode, warming pods and create conflicts delete by uid alone and may hit a stamped pod; nothing is claimed about them beyond what `Evict` allows.
- Sweeps.RecycleSparesGenerationsAtWork: the caller must hold its token when it reads the pod, and the pod must keep its stamp until the delete; Sweeps.RecycleHitsNoForeignGeneration asks for the token at the delete instead. The code checks the lease only before the read and deletes by uid alone.
- Text is ASCII: the decoder and the collector decode each chunk separately, so characters of several bytes that a chunk boundary cuts are not preserved by the code.
- Base64url, JSON, field checks of frames, schema validation and content hashes: abstract total functions or plain values.
- ResponseLifecycle: the stdin stream is not destroyed before it is ended; once it is, frames are dropped. Building a failure frame does not throw, and a task leaves the set and settles in one step.
- Backlog and daily limits: the counts are not atomic with the creation of jobs, so the code does not bound them.
- The per-key queue of one process, mode resolution from labels, and the filter of hydrate targets: easy next to the above.
- Paging in bulk deletes: only the prefix they use is modelled.
